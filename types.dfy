/**
 * The application's domain records: the session bundle kept between runs,
 * and the customer, product, profile and order records that the response
 * transforms produce.  The portal's numbers are modelled as unbounded
 * integers.
 */
module Types {

  /** A browser cookie.  Its fields are never inspected by the core. */
  type Cookie(==)

  /** A customer classification as the portal names it ("Rumah Tangga", "Usaha Mikro", ...). */
  type CustomerType = string

  datatype Option<+T> = None | Some(value: T)

  /** The merchant flags that the login response reports. */
  datatype AuthSettings = AuthSettings(
    isLogin: bool,
    merchantType: string,
    isDefaultPin: bool,
    isNewUser: bool,
    isSubsidyProduct: bool)

  /** The session bundle: browser cookies, access token and settings flags. */
  datatype Auth = Auth(cookies: seq<Cookie>, accessToken: string, settings: AuthSettings)

  /** A verified customer and the quota left to them. */
  datatype Customer = Customer(
    nationalityId: string,
    name: string,
    quota: int,
    types: seq<CustomerType>)

  datatype Stock = Stock(available: int, redeem: int)

  datatype Product = Product(id: string, name: string, stock: Stock)

  datatype Person = Person(nationalityId: string, name: string, email: string, phoneNumber: string)

  datatype Location = Location(
    address: string,
    village: string,
    district: string,
    city: string,
    province: string,
    zipCode: string,
    coordinate: string)

  /** The distribution agent a merchant is registered with. */
  datatype Agent = Agent(id: string, name: string)

  datatype Profile = Profile(person: Person, location: Location, agent: Agent)

  /** The customer summary echoed in an order: quota is what remains after the order. */
  datatype OrderCustomer = OrderCustomer(nationalityId: string, name: string, quota: int)

  datatype OrderProduct = OrderProduct(id: string, name: string, quantity: int)

  datatype Order = Order(id: string, customer: OrderCustomer, product: OrderProduct)
}
