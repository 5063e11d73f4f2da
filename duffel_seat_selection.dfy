/** The `DuffelSeatSelection` widget: it fetches the offer and its seat maps,
    checks the offer's expiry and passenger count, fills in passenger ids for
    fixture offers, renders the seat-selection modal or an error panel, and
    reports a complete payload to the host page. */
module DuffelSeatSelection {
  import opened Types
  import opened SeatSelectionStandalone

  const EXPIRY_ERROR_MESSAGE := "This offer has expired."
  const MILLISECONDS_IN_ONE_DAY := 1000 * 60 * 60 * 24
  const FIXTURE_OFFER_ID_PREFIX := "fixture_"
  /** The widget shows one service card: seats. */
  const SERVICE_COUNT := 1

  datatype CustomStyles = CustomStyles(
    accentColor: Option<string>,
    fontFamily: Option<string>,
    buttonCornerRadius: Option<string>,
    sidesPadding: Option<string>,
    infoCardMargin: Option<string>)

  /** What `props.styles?.field` reads when no styles were given. */
  const NO_STYLES := CustomStyles(None, None, None, None, None)

  /** The props the host page passes; `offerId`, `clientKey` and `offer` are
      read only when present. */
  datatype SeatSelectionProps = SeatSelectionProps(
    offerId: Option<string>,
    clientKey: Option<string>,
    styles: Option<CustomStyles>,
    selectedServices: seq<SeatService>,
    passengers: seq<Passenger>,
    offer: Option<Offer>)

  datatype SeatPayloadInput = SeatPayloadInput(
    baggageSelectedServices: seq<Service>,
    seatSelectedServices: seq<SeatService>,
    cfarSelectedServices: seq<Service>,
    offer: Offer,
    passengers: seq<Passenger>,
    seatMaps: Option<seq<SeatMap>>)

  /** The library helpers the widget calls; the model does not interpret them. */
  datatype SeatSelectionLibrary = SeatSelectionLibrary(
    offerIsExpired: Offer -> bool,
    formatAvailableServices: Offer -> Offer,
    formatSeatMaps: seq<SeatMap> -> seq<SeatMap>,
    compileCreateOrderPayload: SeatPayloadInput -> CreateOrderPayload,
    isPayloadComplete: CreateOrderPayload -> bool,
    hasHighLuminance: string -> bool)

  datatype ServicesMetadata = ServicesMetadata(
    offerTotalAmount: string,
    offerTotalCurrency: string,
    offerTaxAmount: string,
    offerTaxCurrency: string,
    baggageServices: seq<Service>,
    seatServices: seq<SeatService>,
    cancelForAnyReasonServices: seq<Service>)

  /** One call of `onPayloadReady`. */
  datatype PayloadReady = PayloadReady(payload: CreateOrderPayload, metadata: ServicesMetadata)

  /** A `setTimeout` that sets the error `message` after `delay` milliseconds. */
  datatype ExpiryTimer = ExpiryTimer(delay: int, message: string)

  /** The error thrown when the host page and the offer disagree on the number of passengers. */
  datatype PassengerCountMismatch = PassengerCountMismatch(given: nat, onOffer: nat) {
    /** The thrown message; both counts can be read back from it. */
    function Message(): (m: string)
      ensures |MISMATCH_MESSAGE_START| + |NatToString(given)| <= |m|
      ensures m[..|MISMATCH_MESSAGE_START|] == MISMATCH_MESSAGE_START
      ensures DecimalValue(m[|MISMATCH_MESSAGE_START|..|MISMATCH_MESSAGE_START| + |NatToString(given)|]) == given
      ensures |m| >= |NatToString(onOffer)| + 2
      ensures DecimalValue(m[|m| - |NatToString(onOffer)| - 2..|m| - 2]) == onOffer
    {
      var g := NatToString(given);
      var o := NatToString(onOffer);
      var m := MISMATCH_MESSAGE_START + g + MISMATCH_MESSAGE_MIDDLE + o + ").";
      NatToStringRoundTrip(given);
      NatToStringRoundTrip(onOffer);
      assert m[|MISMATCH_MESSAGE_START|..|MISMATCH_MESSAGE_START| + |g|] == g;
      assert m[|m| - |o| - 2..|m| - 2] == o;
      m
    }
  }

  const MISMATCH_MESSAGE_START := "The number of passengers given to `duffel-ancillaries` ("
  const MISMATCH_MESSAGE_MIDDLE := ") doesn't match the number of passengers on the given offer ("

  /** Props for a fixture offer: an offer id is given and its first
      characters are `fixture_`. */
  predicate IsPropsWithOfferIdForFixture(props: SeatSelectionProps): (fixture: bool)
    ensures fixture <==>
      && props.offerId.Some?
      && |props.offerId.value| >= |FIXTURE_OFFER_ID_PREFIX|
      && forall i :: 0 <= i < |FIXTURE_OFFER_ID_PREFIX| ==> props.offerId.value[i] == FIXTURE_OFFER_ID_PREFIX[i]
  {
    props.offerId.Some? && FIXTURE_OFFER_ID_PREFIX <= props.offerId.value
  }

  /** Props that give both an offer id and a client key, whatever their values. */
  predicate IsPropsWithClientKeyAndOfferId(props: SeatSelectionProps): (keyed: bool)
    ensures keyed <==> props.offerId.Some? && props.clientKey.Some?
  {
    props.offerId.Some? && props.clientKey.Some?
  }

  /** The arguments of the offer fetch; a fixture offer is fetched without a client key. */
  datatype OfferRequest = OfferRequest(offerId: string, clientKey: Option<string>)

  /** The arguments of the seat-map fetch, passed on as the props hold them. */
  datatype SeatMapsRequest = SeatMapsRequest(offerId: Option<string>, clientKey: Option<string>)

  /** What arriving at a non-expired or expired offer leads to. */
  datatype ExpiryDecision = OfferExpired | ExpiresWithinADay(msUntilExpiry: int) | ExpiresLater

  function ExpiryDecisionFor(isExpired: bool, expiresAt: int, now: int): (d: ExpiryDecision)
    ensures d.OfferExpired? <==> isExpired
    ensures d.ExpiresWithinADay? <==> !isExpired && expiresAt - now < MILLISECONDS_IN_ONE_DAY
    ensures d.ExpiresWithinADay? ==> now + d.msUntilExpiry == expiresAt
  {
    if isExpired then OfferExpired
    else
      var msUntilExpiry := expiresAt - now;
      if msUntilExpiry < MILLISECONDS_IN_ONE_DAY then ExpiresWithinADay(msUntilExpiry) else ExpiresLater
  }

  /** An offer expiring in 30 minutes gets a timer at 30 minutes; one expiring
      in 400 days gets none. */
  lemma ExpiryDecisionExamples(now: int)
    ensures ExpiryDecisionFor(false, now + 30 * 60 * 1000, now) == ExpiresWithinADay(30 * 60 * 1000)
    ensures ExpiryDecisionFor(false, now + 400 * MILLISECONDS_IN_ONE_DAY, now) == ExpiresLater
  {
  }

  /** The fixture passengers: each host-page passenger takes the id of the
      offer passenger at the same position and keeps every other field. */
  function WithFixturePassengerIds(passengers: seq<Passenger>, offerPassengers: seq<OfferPassenger>)
    : (r: seq<Passenger>)
    requires |passengers| <= |offerPassengers|
    ensures |r| == |passengers|
    ensures forall i :: 0 <= i < |r| ==> r[i] == passengers[i].(id := offerPassengers[i].id)
  {
    if passengers == [] then []
    else [passengers[0].(id := offerPassengers[0].id)] + WithFixturePassengerIds(passengers[1..], offerPassengers[1..])
  }

  /** The fixed style keys set before any custom style. */
  const BASE_STYLE: map<StyleProperty, string> := map[
    Display := "flex",
    Width := "100%",
    Height := "100vh",
    FlexDirection := "column",
    RowGap := "12px"]

  const STYLE_VARIABLES: set<StyleProperty> :=
    {AccentVar, SecondaryVar, TertiaryVar, FontFamilyVar, ButtonRadiusVar, SidesPaddingVar, InfoCardMarginVar}

  /** No custom style can overwrite a base key. */
  lemma BaseStyleIsNotVariable()
    ensures BASE_STYLE.Keys !! STYLE_VARIABLES
  {
  }

  /** The inline style of the widget: the base keys, then the accent colour
      variables, then the layout variables. No two of the three parts share a
      key, so every entry of each part appears unchanged. */
  function DuffelComponentsStyle(styles: CustomStyles, hasHighLuminance: string -> bool)
    : (style: map<StyleProperty, string>)
    ensures style.Keys == BASE_STYLE.Keys + AccentVariables(styles.accentColor, hasHighLuminance).Keys
                          + LayoutVariables(styles).Keys
    ensures forall k :: k in BASE_STYLE ==> style[k] == BASE_STYLE[k]
    ensures forall k :: k in AccentVariables(styles.accentColor, hasHighLuminance)
                        ==> style[k] == AccentVariables(styles.accentColor, hasHighLuminance)[k]
    ensures forall k :: k in LayoutVariables(styles) ==> style[k] == LayoutVariables(styles)[k]
  {
    BaseStyleIsNotVariable();
    BASE_STYLE + AccentVariables(styles.accentColor, hasHighLuminance) + LayoutVariables(styles)
  }

  /** The accent colour, and the darker text colours a light accent needs. */
  function AccentVariables(accentColor: Option<string>, hasHighLuminance: string -> bool)
    : (m: map<StyleProperty, string>)
    ensures m.Keys <= {AccentVar, SecondaryVar, TertiaryVar}
    ensures AccentVar in m <==> Truthy(accentColor)
    ensures AccentVar in m ==> m[AccentVar] == accentColor.value
    ensures SecondaryVar in m <==> Truthy(accentColor) && hasHighLuminance(accentColor.value)
    ensures TertiaryVar in m <==> SecondaryVar in m
    ensures SecondaryVar in m ==> m[SecondaryVar] == "var(--GREY-900)" && m[TertiaryVar] == "var(--GREY-400)"
  {
    var highLuminance :=
      if Truthy(accentColor) && hasHighLuminance(accentColor.value)
      then map[SecondaryVar := "var(--GREY-900)", TertiaryVar := "var(--GREY-400)"]
      else map[];
    OptionalEntry(AccentVar, accentColor) + highLuminance
  }

  /** The font, corner radius and spacing variables. */
  function LayoutVariables(styles: CustomStyles): (m: map<StyleProperty, string>)
    ensures m.Keys <= {FontFamilyVar, ButtonRadiusVar, SidesPaddingVar, InfoCardMarginVar}
    ensures FontFamilyVar in m <==> Truthy(styles.fontFamily)
    ensures FontFamilyVar in m ==> m[FontFamilyVar] == styles.fontFamily.value
    ensures ButtonRadiusVar in m <==> Truthy(styles.buttonCornerRadius)
    ensures ButtonRadiusVar in m ==> m[ButtonRadiusVar] == styles.buttonCornerRadius.value
    ensures SidesPaddingVar in m <==> Truthy(styles.sidesPadding)
    ensures SidesPaddingVar in m ==> m[SidesPaddingVar] == styles.sidesPadding.value
    ensures InfoCardMarginVar in m <==> Truthy(styles.infoCardMargin)
    ensures InfoCardMarginVar in m ==> m[InfoCardMarginVar] == styles.infoCardMargin.value
  {
    OptionalEntry(FontFamilyVar, styles.fontFamily)
      + OptionalEntry(ButtonRadiusVar, styles.buttonCornerRadius)
      + OptionalEntry(SidesPaddingVar, styles.sidesPadding)
      + OptionalEntry(InfoCardMarginVar, styles.infoCardMargin)
  }

  /** The error panel of the widget is one card high. */
  lemma ErrorPanelHeight()
    ensures NonIdealStateHeight(SERVICE_COUNT) == 72
  {
  }

  /** What the widget renders inside its container. */
  datatype SeatSelectionView =
    | FetchOfferErrorState(heightPx: int, message: string)
    | SeatSelectionModal(
        isLoading: bool,
        seatMaps: Option<seq<SeatMap>>,
        offer: Option<Offer>,
        passengers: seq<Passenger>,
        selectedServices: seq<SeatService>)

  /** One mounted `DuffelSeatSelection` component with fixed props. */
  class SeatSelectionWidget {
    const props: SeatSelectionProps
    const lib: SeatSelectionLibrary

    var passengers: seq<Passenger>
    var offer: Option<Offer>
    var isOfferLoading: bool
    var seatMaps: Option<seq<SeatMap>>
    var isSeatMapLoading: bool
    var error: Option<string>
    /** Every expiry timer scheduled so far. */
    var timers: seq<ExpiryTimer>
    /** How many times `onLoaded` was called. */
    var loadedCount: nat

    /** The passenger list always matches the host page's in length, and every
        scheduled timer sets the expiry error. */
    ghost predicate Valid()
      reads this
    {
      && |passengers| == |props.passengers|
      && forall t :: t in timers ==> t.message == EXPIRY_ERROR_MESSAGE
    }

    constructor (props: SeatSelectionProps, lib: SeatSelectionLibrary)
      ensures this.props == props && this.lib == lib
      ensures passengers == props.passengers && offer == props.offer
      ensures isOfferLoading && isSeatMapLoading
      ensures seatMaps.None? && error.None? && timers == [] && loadedCount == 0
      ensures Valid()
    {
      this.props := props;
      this.lib := lib;
      passengers := props.passengers;
      offer := props.offer;
      isOfferLoading := true;
      seatMaps := None;
      isSeatMapLoading := true;
      error := None;
      timers := [];
      loadedCount := 0;
    }

    method SetError(message: string)
      modifies this`error
      ensures error == Some(message)
    {
      error := Some(message);
    }

    method SetIsOfferLoading(loading: bool)
      modifies this`isOfferLoading
      ensures isOfferLoading == loading
    {
      isOfferLoading := loading;
    }

    method SetIsSeatMapLoading(loading: bool)
      modifies this`isSeatMapLoading
      ensures isSeatMapLoading == loading
    {
      isSeatMapLoading := loading;
    }

    /** `updateOffer` at clock reading `now`: an expired offer only sets the
        error; otherwise a timer is scheduled when the offer expires within a
        day, and the formatted offer is stored. */
    method UpdateOffer(fetched: Offer, now: int)
      requires Valid()
      modifies this`error, this`timers, this`offer
      ensures Valid()
      ensures var d := ExpiryDecisionFor(lib.offerIsExpired(fetched), fetched.expiresAt, now);
        match d
        case OfferExpired =>
          error == Some(EXPIRY_ERROR_MESSAGE) && timers == old(timers) && offer == old(offer)
        case ExpiresWithinADay(ms) =>
          && error == old(error)
          && timers == old(timers) + [ExpiryTimer(ms, EXPIRY_ERROR_MESSAGE)]
          && offer == Some(lib.formatAvailableServices(fetched))
        case ExpiresLater =>
          error == old(error) && timers == old(timers) && offer == Some(lib.formatAvailableServices(fetched))
    {
      if lib.offerIsExpired(fetched) {
        error := Some(EXPIRY_ERROR_MESSAGE);
        return;
      } else {
        var msUntilExpiry := fetched.expiresAt - now;
        if msUntilExpiry < MILLISECONDS_IN_ONE_DAY {
          timers := timers + [ExpiryTimer(msUntilExpiry, EXPIRY_ERROR_MESSAGE)];
        }
      }
      offer := Some(lib.formatAvailableServices(fetched));
    }

    /** The success callback of the offer fetch. The passenger count is checked
        after `updateOffer` has run; a mismatch is thrown and nothing further
        happens. For fixture props the passenger ids are filled in. */
    method OnOfferRetrieved(fetched: Offer, now: int) returns (thrown: Option<PassengerCountMismatch>)
      requires Valid()
      modifies this`error, this`timers, this`offer, this`passengers
      ensures Valid()
      ensures var d := ExpiryDecisionFor(lib.offerIsExpired(fetched), fetched.expiresAt, now);
        match d
        case OfferExpired =>
          error == Some(EXPIRY_ERROR_MESSAGE) && timers == old(timers) && offer == old(offer)
        case ExpiresWithinADay(ms) =>
          && error == old(error)
          && timers == old(timers) + [ExpiryTimer(ms, EXPIRY_ERROR_MESSAGE)]
          && offer == Some(lib.formatAvailableServices(fetched))
        case ExpiresLater =>
          error == old(error) && timers == old(timers) && offer == Some(lib.formatAvailableServices(fetched))
      ensures thrown.Some? <==> |fetched.passengers| != |old(passengers)|
      ensures thrown.Some? ==> thrown.value == PassengerCountMismatch(|props.passengers|, |fetched.passengers|)
      ensures passengers ==
        if thrown.None? && IsPropsWithOfferIdForFixture(props)
        then WithFixturePassengerIds(props.passengers, fetched.passengers)
        else old(passengers)
    {
      UpdateOffer(fetched, now);
      if |fetched.passengers| != |passengers| {
        thrown := Some(PassengerCountMismatch(|props.passengers|, |fetched.passengers|));
        return;
      }
      thrown := None;
      if IsPropsWithOfferIdForFixture(props) {
        passengers := WithFixturePassengerIds(props.passengers, fetched.passengers);
      }
    }

    /** `updateSeatMaps`; the fetcher's "no seat maps" callback passes the empty list. */
    method UpdateSeatMaps(fetched: seq<SeatMap>)
      modifies this`seatMaps
      ensures seatMaps == Some(lib.formatSeatMaps(fetched))
    {
      seatMaps := Some(lib.formatSeatMaps(fetched));
    }

    /** The promise of the seat-map fetch resolved: `onLoaded` is called. A
        rejected fetch promise does not call it. */
    method OnSeatMapsFetchResolved()
      modifies this`loadedCount
      ensures loadedCount == old(loadedCount) + 1
    {
      loadedCount := loadedCount + 1;
    }

    /** The fetch effect, run once on mount: the offer is fetched only for
        props with a client key and an offer id or with a fixture offer id,
        while the seat maps are fetched on every run. The fetches' callbacks
        are `SetError`, `SetIsOfferLoading`, `OnOfferRetrieved`,
        `SetIsSeatMapLoading`, `UpdateSeatMaps` and `OnSeatMapsFetchResolved`. */
    method FetchEffect() returns (offerRequest: Option<OfferRequest>, seatMapsRequest: SeatMapsRequest)
      ensures offerRequest.Some? <==> IsPropsWithClientKeyAndOfferId(props) || IsPropsWithOfferIdForFixture(props)
      ensures offerRequest.Some? <==>
        props.offerId.Some? && (props.clientKey.Some? || FIXTURE_OFFER_ID_PREFIX <= props.offerId.value)
      ensures offerRequest.Some? ==> offerRequest.value == OfferRequest(props.offerId.value, props.clientKey)
      ensures seatMapsRequest == SeatMapsRequest(props.offerId, props.clientKey)
    {
      offerRequest := None;
      if IsPropsWithClientKeyAndOfferId(props) || IsPropsWithOfferIdForFixture(props) {
        offerRequest := Some(OfferRequest(props.offerId.value, props.clientKey));
      }
      seatMapsRequest := SeatMapsRequest(props.offerId, props.clientKey);
    }

    /** A scheduled expiry timer fires. */
    method ExpiryTimerFires(i: nat)
      requires Valid() && i < |timers|
      modifies this`error
      ensures Valid() && error == Some(EXPIRY_ERROR_MESSAGE)
    {
      error := Some(timers[i].message);
    }

    /** `triggerOnPayloadReady`, called with the seat selection when the modal closes. */
    method TriggerOnPayloadReady(seatSelectedServices: seq<SeatService>) returns (emitted: Option<PayloadReady>)
      ensures emitted.Some? <==>
        offer.Some? && lib.isPayloadComplete(lib.compileCreateOrderPayload(
          SeatPayloadInput([], seatSelectedServices, [], offer.value, passengers, seatMaps)))
      ensures emitted.Some? ==>
        && emitted.value.payload == lib.compileCreateOrderPayload(
             SeatPayloadInput([], seatSelectedServices, [], offer.value, passengers, seatMaps))
        && emitted.value.metadata == ServicesMetadata(
             offer.value.totalAmount, offer.value.totalCurrency, offer.value.taxAmount, offer.value.taxCurrency,
             [], seatSelectedServices, [])
    {
      if offer.None? {
        return None;
      }
      var current := offer.value;
      var createOrderPayload := lib.compileCreateOrderPayload(
        SeatPayloadInput([], seatSelectedServices, [], current, passengers, seatMaps));
      if lib.isPayloadComplete(createOrderPayload) {
        var metadata := ServicesMetadata(
          current.totalAmount, current.totalCurrency, current.taxAmount, current.taxCurrency,
          [], seatSelectedServices, []);
        return Some(PayloadReady(createOrderPayload, metadata));
      }
      return None;
    }

    /** The style of the container; without a styles prop only the base keys are set. */
    function Style(): (style: map<StyleProperty, string>)
      reads this
      ensures forall k :: k in BASE_STYLE ==> k in style && style[k] == BASE_STYLE[k]
      ensures AccentVar in style <==> props.styles.Some? && Truthy(props.styles.value.accentColor)
      ensures props.styles.None? ==> style == BASE_STYLE
    {
      DuffelComponentsStyle(props.styles.GetOr(NO_STYLES), lib.hasHighLuminance)
    }

    /** A truthy error replaces the modal with a one-card error panel; otherwise
        the modal is loading while either fetch is. */
    function View(): (v: SeatSelectionView)
      reads this
      ensures v.FetchOfferErrorState? <==> Truthy(error)
      ensures v.FetchOfferErrorState? ==> v.heightPx == 72 && v.message == error.value
      ensures v.SeatSelectionModal? ==>
        && v.isLoading == (isOfferLoading || isSeatMapLoading)
        && v.offer == offer && v.seatMaps == seatMaps && v.passengers == passengers
        && v.selectedServices == props.selectedServices
    {
      if Truthy(error) then FetchOfferErrorState(NonIdealStateHeight(SERVICE_COUNT), error.value)
      else SeatSelectionModal(isOfferLoading || isSeatMapLoading, seatMaps, offer, passengers, props.selectedServices)
    }

    /** What the modal shows, by its early returns; `None` when the error panel replaces it. */
    function RenderedStage(): (r: Option<RenderStage>)
      reads this
      ensures r.None? <==> Truthy(error)
      ensures r == Some(LoadingPlaceholder) <==> !Truthy(error) && (isOfferLoading || isSeatMapLoading)
      ensures r == Some(SeatSelectionRendered) <==>
        !Truthy(error) && !isOfferLoading && !isSeatMapLoading && offer.Some? && seatMaps.Some?
    {
      match View()
      case FetchOfferErrorState(_, _) => None
      case SeatSelectionModal(isLoading, modalSeatMaps, modalOffer, _, _) =>
        Some(StageFor(isLoading, modalOffer.Some?, modalSeatMaps.Some?))
    }
  }
}
