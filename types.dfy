/** Records of the Duffel API shared by the components, and small helpers
    for the JavaScript idioms the components rely on. */
module Types {

  datatype Option<+T> = None | Some(value: T) {

    /** The value, or `default` when absent (`x ?? default`). */
    function GetOr(default: T): T {
      if Some? then value else default
    }
  }

  /** JavaScript truthiness of an optional string: present and not empty. */
  predicate Truthy(s: Option<string>) {
    s.Some? && s.value != ""
  }

  /** A passenger as listed on a fetched offer. */
  datatype OfferPassenger = OfferPassenger(id: string)

  /** A priced flight offer. `expiresAt` is the expiry instant in milliseconds
      since the epoch (the ISO-8601 text of the API already parsed). */
  datatype Offer = Offer(
    id: string,
    expiresAt: int,
    passengers: seq<OfferPassenger>,
    totalAmount: string,
    totalCurrency: string,
    taxAmount: string,
    taxCurrency: string)

  /** A passenger as supplied by the host page for order creation. */
  datatype Passenger = Passenger(
    id: string,
    givenName: string,
    familyName: string,
    gender: string,
    title: string,
    bornOn: string,
    email: string,
    phoneNumber: string)

  /** A selected service without seat information: an id and a quantity. */
  datatype Service = Service(id: string, quantity: int)

  /** A seat map of one segment (its cabins are not modelled). */
  datatype SeatMap = SeatMap(id: string, segmentId: string)

  /** The order-creation payload handed to the host page. */
  datatype CreateOrderPayload = CreateOrderPayload(
    selectedOffers: seq<string>,
    passengers: seq<Passenger>,
    services: seq<Service>)

  /** The inline-style properties and CSS variables the components set. */
  datatype StyleProperty =
    | Display | Width | Height | FlexDirection | RowGap
    | AccentVar | SecondaryVar | TertiaryVar | FontFamilyVar | ButtonRadiusVar | SidesPaddingVar | InfoCardMarginVar
  {
    /** The property name as written in the style object. */
    function Name(): string {
      match this
      case Display => "display"
      case Width => "width"
      case Height => "height"
      case FlexDirection => "flexDirection"
      case RowGap => "rowGap"
      case AccentVar => "--ACCENT"
      case SecondaryVar => "--SECONDARY"
      case TertiaryVar => "--TERTIARY"
      case FontFamilyVar => "--FONT-FAMILY"
      case ButtonRadiusVar => "--BUTTON-RADIUS"
      case SidesPaddingVar => "--SIDES-PADDING"
      case InfoCardMarginVar => "--INFO-CARD-MARGIN"
    }
  }

  /** Distinct properties are written under distinct keys, so a map over
      `StyleProperty` is the style object key for key. */
  lemma StylePropertyNamesDistinct(p: StyleProperty, q: StyleProperty)
    ensures p.Name() == q.Name() ==> p == q
  {
  }

  /** `...(value && { [key]: value })`: the key only for a truthy value. */
  function OptionalEntry(key: StyleProperty, value: Option<string>): (m: map<StyleProperty, string>)
    ensures key in m <==> Truthy(value)
    ensures m.Keys <= {key}
    ensures key in m ==> m[key] == value.value
  {
    if Truthy(value) then map[key := value.value] else map[]
  }

  function DigitChar(d: nat): (c: char)
    requires d < 10
    ensures IsDigit(c) && DigitValue(c) == d
  {
    (48 + d) as char
  }

  predicate IsDigit(c: char) {
    '0' <= c <= '9'
  }

  function DigitValue(c: char): int {
    c as int - '0' as int
  }

  /** Decimal rendering of a natural number, as a template literal prints it. */
  function NatToString(n: nat): (s: string)
    ensures |s| >= 1
    ensures forall i :: 0 <= i < |s| ==> IsDigit(s[i])
    decreases n
  {
    if n < 10 then [DigitChar(n)] else NatToString(n / 10) + [DigitChar(n % 10)]
  }

  /** The number a string of decimal digits denotes. */
  function DecimalValue(s: string): int
    decreases |s|
  {
    if s == [] then 0 else 10 * DecimalValue(s[..|s| - 1]) + DigitValue(s[|s| - 1])
  }

  /** Reading the rendering back gives the number. */
  lemma {:induction false} NatToStringRoundTrip(n: nat)
    ensures DecimalValue(NatToString(n)) == n
    decreases n
  {
    var s := NatToString(n);
    if n < 10 {
      assert s[..|s| - 1] == [];
    } else {
      NatToStringRoundTrip(n / 10);
      assert s[..|s| - 1] == NatToString(n / 10);
    }
  }

  /** Height of one service card of the loading skeleton, and the gap between cards. */
  const CARD_HEIGHT_PX := 72
  const CARD_GAP_PX := 32

  /** The error panel is as tall as the skeleton it replaces:
      `cardCount` cards with a gap between each two. For any cards at all
      it is at least as tall as the cards alone, and so, as a corollary, at
      least one card high. */
  function NonIdealStateHeight(cardCount: nat): (heightPx: int)
    ensures cardCount > 0 ==> heightPx >= CARD_HEIGHT_PX * cardCount
    ensures cardCount > 0 ==> heightPx >= CARD_HEIGHT_PX
  {
    CARD_HEIGHT_PX * cardCount + CARD_GAP_PX * (cardCount - 1)
  }
}
