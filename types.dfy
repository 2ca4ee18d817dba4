/**
  The domain types of types/index.ts: three closed string unions and the
  two records that the store returns.
 */
module Types {
  import opened Wrappers

  /** `KeychainType = "GH" | "2G" | "Coupled" | "Square"` */
  datatype KeychainType = GH | TwoG | Coupled | Square

  /** `DeliveryType = "to deliver" | "comes and takes"` */
  datatype DeliveryType = ToDeliver | ComesAndTakes

  /** `OrderStatus = "critical" | "normal" | "done"` */
  datatype OrderStatus = Critical | Normal | Done

  /** The string literal each variant stands for. */
  function KeychainTypeTag(k: KeychainType): string
  {
    match k
    case GH => "GH"
    case TwoG => "2G"
    case Coupled => "Coupled"
    case Square => "Square"
  }

  /**
    The strings the `KeychainType` union admits. The page's `as KeychainType`
    cast is erased when TypeScript compiles and checks nothing; what keeps the
    value within these four literals is the select's `<option>` list, which
    offers exactly them. The model's form therefore stores a `KeychainType`.
   */
  function ParseKeychainType(s: string): (r: Option<KeychainType>)
    ensures r.Some? ==> KeychainTypeTag(r.value) == s
  {
    if s == "GH" then Some(GH)
    else if s == "2G" then Some(TwoG)
    else if s == "Coupled" then Some(Coupled)
    else if s == "Square" then Some(Square)
    else None
  }

  function DeliveryTypeTag(d: DeliveryType): string
  {
    match d
    case ToDeliver => "to deliver"
    case ComesAndTakes => "comes and takes"
  }

  /** The strings the `DeliveryType` union admits (the delivery select offers exactly these). */
  function ParseDeliveryType(s: string): (r: Option<DeliveryType>)
    ensures r.Some? ==> DeliveryTypeTag(r.value) == s
  {
    if s == "to deliver" then Some(ToDeliver)
    else if s == "comes and takes" then Some(ComesAndTakes)
    else None
  }

  function OrderStatusTag(s: OrderStatus): string
  {
    match s
    case Critical => "critical"
    case Normal => "normal"
    case Done => "done"
  }

  /** The strings the `OrderStatus` union admits (the status select offers exactly these). */
  function ParseOrderStatus(s: string): (r: Option<OrderStatus>)
    ensures r.Some? ==> OrderStatusTag(r.value) == s
  {
    if s == "critical" then Some(Critical)
    else if s == "normal" then Some(Normal)
    else if s == "done" then Some(Done)
    else None
  }

  /** Every variant has its own literal, and the literals are exactly the four of the union. */
  lemma KeychainTypeTagsRoundTrip(k: KeychainType, s: string)
    ensures ParseKeychainType(KeychainTypeTag(k)) == Some(k)
    ensures ParseKeychainType(s).Some? <==> s in {"GH", "2G", "Coupled", "Square"}
  {
  }

  lemma DeliveryTypeTagsRoundTrip(d: DeliveryType, s: string)
    ensures ParseDeliveryType(DeliveryTypeTag(d)) == Some(d)
    ensures ParseDeliveryType(s).Some? <==> s in {"to deliver", "comes and takes"}
  {
  }

  lemma OrderStatusTagsRoundTrip(t: OrderStatus, s: string)
    ensures ParseOrderStatus(OrderStatusTag(t)) == Some(t)
    ensures ParseOrderStatus(s).Some? <==> s in {"critical", "normal", "done"}
  {
  }

  /** A stored order. It names its group only through `groupId`. */
  datatype Order = Order(
    id: string,
    groupId: string,
    dateAccepted: string,
    dateDelivery: string,
    customerName: string,
    orderSource: string,
    phrase: string,
    keychainType: KeychainType,
    address: string,
    deliveryType: DeliveryType,
    amount: int,
    status: OrderStatus,
    accepted: bool,
    done: bool,
    createdAt: string
  )

  /** A group as the store returns it; `orders?: Order[]` may be absent. */
  datatype OrderGroup = OrderGroup(
    id: string,
    name: string,
    createdAt: string,
    orders: Option<seq<Order>>
  )

  /**
    `status` and `done` are independent fields: every combination of the two
    is a valid order, and changing one leaves the other as it was.
   */
  lemma StatusIndependentOfDone(o: Order, s: OrderStatus, b: bool)
    ensures var o' := o.(status := s, done := b); o'.status == s && o'.done == b
    ensures o.(status := s).done == o.done && o.(done := b).status == o.status
  {
  }
}
