/** The tables of one store, as the order handlers see them. */
module Domain {
  import opened Base
  import opened Pricing
  import opened Stock
  import opened Lifecycle

  /** A catalogue product: its price, tax rates and the price of each variant. */
  datatype Product = Product(price: nat, rates: seq<nat>, variants: map<Id, nat>, hasVariants: bool, listed: bool)

  /** A file sold with a product. */
  datatype Asset = Asset(id: Id, product: Id)

  datatype Coupon = Coupon(discount: Discount, limit: Option<nat>, used: nat, active: bool, expiresAt: Option<int>)

  datatype Shipping = Shipping(cost: nat, active: bool)

  /** A digital store never tracks inventory. */
  datatype Store = Store(tracks: bool, digital: bool, whatsapp: bool, telegram: bool, zelle: bool,
                         zeroDecimal: bool, linkTtl: nat, maxDownloads: nat)

  /** A line of an order: what it sold, at which price, rates and quantity, and its stored amounts. */
  datatype Item = Item(product: Option<Id>, variant: Option<Id>, unit: nat, quantity: nat, rates: seq<nat>,
                       tax: nat, total: nat)

  datatype Key = Key(product: Option<Id>, variant: Option<Id>)

  datatype DeliveryStatus = ToSend | Sent | Revoked

  datatype Grant = Grant(asset: Id, token: nat, expiresAt: int, maxDownloads: nat, count: nat, revoked: bool)

  datatype Delivery = Delivery(status: DeliveryStatus, attempts: nat, grants: seq<Grant>)

  /** `zeroDecimal` is a fact about its currency; `invoices` counts the invoice jobs its settlements queued. */
  datatype Order = Order(
    row: Row,
    items: seq<Item>,
    coupon: Option<Id>,
    totals: Totals,
    shipping: Option<Id>,
    email: bool,
    proof: bool,
    paypalOrder: Option<Id>,
    createdAt: int,
    zeroDecimal: bool,
    delivery: Option<Delivery>,
    invoices: nat
  )

  /**
   * Orders are numbered by their position; rows are only ever added. `asked` collects the refunds
   * requested from a provider, `tokens` numbers the download tokens drawn so far.
   */
  datatype Db = Db(
    store: Store,
    catalogue: map<Id, Product>,
    assets: seq<Asset>,
    shippings: map<Id, Shipping>,
    coupons: map<Id, Coupon>,
    shelf: Shelf,
    orders: seq<Order>,
    asked: set<(Method, Id)>,
    tokens: nat
  )

  function KeyOf(item: Item): Key {
    Key(item.product, item.variant)
  }

  function LineOf(item: Item): Line {
    Line(item.unit, item.quantity, item.rates)
  }

  /** The stored amounts of an item are the pricing of its own price, rates and quantity. */
  predicate ItemOk(item: Item) {
    var p := PriceLine(LineOf(item));
    item.tax == p.tax && item.total == p.total
  }

  /** The item sold again at another quantity: same price and rates, amounts worked out anew. */
  function Requantify(item: Item, quantity: nat): Item {
    var p := PriceLine(Line(item.unit, quantity, item.rates));
    item.(quantity := quantity, tax := p.tax, total := p.total)
  }

  /** The stock an item holds; none once both its references are gone. */
  function Held(item: Item): seq<Demand> {
    if item.variant.Some? then [Demand(VariantRow(item.variant.value), item.quantity)]
    else if item.product.Some? then [Demand(ProductRow(item.product.value), item.quantity)]
    else []
  }

  function HeldBy(items: seq<Item>): seq<Demand> {
    if items == [] then [] else Held(items[0]) + HeldBy(items[1..])
  }

  function Lines(items: seq<Item>): seq<Line> {
    if items == [] then [] else [LineOf(items[0])] + Lines(items[1..])
  }
}
