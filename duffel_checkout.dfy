/** The `DuffelCheckout` component: it fetches the offer once both identifiers
    are given, shows a baggage card and a seat card, and reports a complete
    order payload to the host page whenever either selection changes. */
module DuffelCheckout {
  import opened Types

  /** The features the checkout shows a card for. */
  datatype Feature = Baggage | Seats

  const SELECTED_FEATURES: set<Feature> := {Baggage, Seats}

  /** The styles prop; each field is a string, read only when the prop is given. */
  datatype CheckoutStyles = CheckoutStyles(accentColor: string, buttonCornerRadius: string, fontFamily: string)

  datatype CheckoutProps = CheckoutProps(
    offerId: string,
    clientKey: string,
    passengers: seq<Passenger>,
    styles: Option<CheckoutStyles>)

  datatype CheckoutPayloadInput = CheckoutPayloadInput(
    baggageSelectedServices: seq<Service>,
    seatSelectedServices: seq<Service>,
    offer: Offer,
    passengers: seq<Passenger>)

  /** The library helpers the checkout calls; the model does not interpret them. */
  datatype CheckoutLibrary = CheckoutLibrary(
    compileCreateOrderPayload: CheckoutPayloadInput -> CreateOrderPayload,
    isPayloadComplete: CreateOrderPayload -> bool)

  /** The arguments of the offer fetch. */
  datatype OfferRequest = OfferRequest(offerId: string, clientKey: string)

  /** A service card: both cards receive the same loading flag and offer. */
  datatype ServiceCard = ServiceCard(
    isLoading: bool,
    offer: Option<Offer>,
    passengers: seq<Passenger>,
    selectedServices: seq<Service>)

  /** What the checkout renders: the error panel (its height in pixels) when
      there is an error, then a card per selected feature. */
  datatype CheckoutView = CheckoutView(
    errorPanelHeightPx: Option<int>,
    baggageCard: Option<ServiceCard>,
    seatCard: Option<ServiceCard>)

  /** The error panel is as tall as the two cards it stands for. */
  lemma ErrorPanelHeight()
    ensures |SELECTED_FEATURES| == 2
    ensures NonIdealStateHeight(|SELECTED_FEATURES|) == 176
  {
    assert SELECTED_FEATURES == {Baggage} + {Seats};
  }

  /** `styles?.field` as an optional string. */
  function StyleField(styles: Option<CheckoutStyles>, field: CheckoutStyles -> string): Option<string>
  {
    if styles.Some? then Some(field(styles.value)) else None
  }

  /** The inline style: each of the three CSS variables only when its field
      is a non-empty string, and no other key. */
  function CheckoutStyle(styles: Option<CheckoutStyles>): (style: map<StyleProperty, string>)
    ensures style.Keys <= {AccentVar, FontFamilyVar, ButtonRadiusVar}
    ensures AccentVar in style <==> styles.Some? && styles.value.accentColor != ""
    ensures AccentVar in style ==> style[AccentVar] == styles.value.accentColor
    ensures FontFamilyVar in style <==> styles.Some? && styles.value.fontFamily != ""
    ensures FontFamilyVar in style ==> style[FontFamilyVar] == styles.value.fontFamily
    ensures ButtonRadiusVar in style <==> styles.Some? && styles.value.buttonCornerRadius != ""
    ensures ButtonRadiusVar in style ==> style[ButtonRadiusVar] == styles.value.buttonCornerRadius
    ensures styles.None? ==> style == map[]
  {
    OptionalEntry(AccentVar, StyleField(styles, (s: CheckoutStyles) => s.accentColor))
      + OptionalEntry(FontFamilyVar, StyleField(styles, (s: CheckoutStyles) => s.fontFamily))
      + OptionalEntry(ButtonRadiusVar, StyleField(styles, (s: CheckoutStyles) => s.buttonCornerRadius))
  }

  /** One mounted `DuffelCheckout` component with fixed props. */
  class Checkout {
    const props: CheckoutProps
    const lib: CheckoutLibrary

    var offer: Option<Offer>
    var error: Option<string>
    var baggageSelectedServices: seq<Service>
    var seatSelectedServices: seq<Service>

    constructor (props: CheckoutProps, lib: CheckoutLibrary)
      ensures this.props == props && this.lib == lib
      ensures offer.None? && error.None?
      ensures baggageSelectedServices == [] && seatSelectedServices == []
    {
      this.props := props;
      this.lib := lib;
      offer := None;
      error := None;
      baggageSelectedServices := [];
      seatSelectedServices := [];
    }

    /** Loading until an offer or a non-empty error arrives: an empty error
        message does not end loading. */
    function IsLoading(): (loading: bool)
      reads this
      ensures loading <==> offer.None? && (error.None? || error.value == "")
    {
      offer.None? && !Truthy(error)
    }

    /** The fetch effect, run once on mount: the request it starts, if any. */
    method FetchEffect() returns (request: Option<OfferRequest>)
      ensures request.Some? <==> props.offerId != "" && props.clientKey != ""
      ensures request.Some? ==> request.value == OfferRequest(props.offerId, props.clientKey)
    {
      if props.offerId == "" || props.clientKey == "" {
        return None;
      }
      return Some(OfferRequest(props.offerId, props.clientKey));
    }

    /** The fetch delivered the offer. The payload effect does not depend on
        the offer, so nothing is emitted here. */
    method SetOffer(fetched: Offer)
      modifies this`offer
      ensures offer == Some(fetched)
    {
      offer := Some(fetched);
    }

    /** The fetch failed with `message`. */
    method SetError(message: string)
      modifies this`error
      ensures error == Some(message)
    {
      error := Some(message);
    }

    function PayloadInput(current: Offer): CheckoutPayloadInput
      reads this
    {
      CheckoutPayloadInput(baggageSelectedServices, seatSelectedServices, current, props.passengers)
    }

    /** The payload effect: the payload handed to `onPayloadReady`, if any.
        Nothing is emitted while the checkout is loading. */
    method PayloadEffect() returns (emitted: Option<CreateOrderPayload>)
      ensures emitted.Some? <==>
        offer.Some? && lib.isPayloadComplete(lib.compileCreateOrderPayload(PayloadInput(offer.value)))
      ensures emitted.Some? ==> emitted.value == lib.compileCreateOrderPayload(PayloadInput(offer.value))
      ensures IsLoading() ==> emitted.None?
    {
      if offer.None? {
        return None;
      }
      var createOrderPayload := lib.compileCreateOrderPayload(PayloadInput(offer.value));
      if lib.isPayloadComplete(createOrderPayload) {
        return Some(createOrderPayload);
      }
      return None;
    }

    /** The baggage card changed its selection; the payload effect re-runs. */
    method SetBaggageSelection(services: seq<Service>) returns (emitted: Option<CreateOrderPayload>)
      modifies this`baggageSelectedServices
      ensures baggageSelectedServices == services
      ensures emitted.Some? <==>
        offer.Some? && lib.isPayloadComplete(lib.compileCreateOrderPayload(
          CheckoutPayloadInput(services, seatSelectedServices, offer.value, props.passengers)))
      ensures emitted.Some? ==> emitted.value == lib.compileCreateOrderPayload(
        CheckoutPayloadInput(services, seatSelectedServices, offer.value, props.passengers))
    {
      baggageSelectedServices := services;
      emitted := PayloadEffect();
    }

    /** The seat card changed its selection; the payload effect re-runs. */
    method SetSeatSelection(services: seq<Service>) returns (emitted: Option<CreateOrderPayload>)
      modifies this`seatSelectedServices
      ensures seatSelectedServices == services
      ensures emitted.Some? <==>
        offer.Some? && lib.isPayloadComplete(lib.compileCreateOrderPayload(
          CheckoutPayloadInput(baggageSelectedServices, services, offer.value, props.passengers)))
      ensures emitted.Some? ==> emitted.value == lib.compileCreateOrderPayload(
        CheckoutPayloadInput(baggageSelectedServices, services, offer.value, props.passengers))
    {
      seatSelectedServices := services;
      emitted := PayloadEffect();
    }

    /** The style of the container; without a styles prop it is empty. */
    function Style(): (style: map<StyleProperty, string>)
      reads this
      ensures style.Keys <= {AccentVar, FontFamilyVar, ButtonRadiusVar}
      ensures props.styles.None? ==> style == map[]
      ensures AccentVar in style <==> props.styles.Some? && props.styles.value.accentColor != ""
    {
      CheckoutStyle(props.styles)
    }

    /** A non-empty error adds the error panel; both cards are shown in every
        state, with the same loading flag. */
    function View(): (v: CheckoutView)
      reads this
      ensures v.errorPanelHeightPx.Some? <==> Truthy(error)
      ensures v.errorPanelHeightPx.Some? ==> v.errorPanelHeightPx.value == 176
      ensures v.baggageCard == Some(ServiceCard(IsLoading(), offer, props.passengers, baggageSelectedServices))
      ensures v.seatCard == Some(ServiceCard(IsLoading(), offer, props.passengers, seatSelectedServices))
    {
      ErrorPanelHeight();
      var height := NonIdealStateHeight(|SELECTED_FEATURES|);
      CheckoutView(
        if Truthy(error) then Some(height) else None,
        if Baggage in SELECTED_FEATURES
        then Some(ServiceCard(IsLoading(), offer, props.passengers, baggageSelectedServices)) else None,
        if Seats in SELECTED_FEATURES
        then Some(ServiceCard(IsLoading(), offer, props.passengers, seatSelectedServices)) else None)
    }
  }
}
