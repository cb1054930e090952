/**
 * Transforms between the portal's response bodies and the domain records.
 * `AuthDto` and `RevertAuthDto` are the serialise/deserialise pair that lets a
 * stored session be written back into the page's local storage; the others
 * are projections.
 */
module Dto {
  import opened Types
  import opened Responses
  import opened Constants

  /** The session bundle built from a login response and the browser's cookies. */
  function AuthDto(response: LoginResponse, cookies: seq<Cookie>): Auth
  {
    var data := response.data;
    Auth(
      cookies,
      data.accessToken,
      AuthSettings(
        data.isLogin,
        data.myptmMerchantType,
        data.isDefaultPin,
        data.isNewUserMyptm,
        data.isSubsidiProduct))
  }

  /** The login body the portal's page expects to find in its local storage. */
  function RevertAuthDto(auth: Auth): LoginData
  {
    LoginData(
      auth.accessToken,
      auth.settings.isLogin,
      auth.settings.merchantType,
      auth.settings.isDefaultPin,
      auth.settings.isNewUser,
      auth.settings.isSubsidyProduct)
  }

  /**
   * The customer record of a verification response.  The identifier is the
   * one that was submitted, and the type names are copied without checking
   * that they are known classifications.
   */
  function CustomerDto(response: VerifyNationalityIdResponse, nationalityId: string): (c: Customer)
    ensures |c.types| == |response.data.customerTypes|
    ensures forall i :: 0 <= i < |c.types| ==> c.types[i] == response.data.customerTypes[i].name
  {
    var data := response.data;
    Customer(
      nationalityId,
      data.name,
      data.quotaRemaining.parent,
      seq(|data.customerTypes|, i requires 0 <= i < |data.customerTypes| => data.customerTypes[i].name))
  }

  function ProfileDto(response: ProfileResponse): Profile
  {
    var data := response.data;
    Profile(
      Person(data.nationalityId, data.name, data.email, data.phoneNumber),
      Location(data.address, data.villageName, data.ditrictName, data.city,
               data.province, data.zipcode, data.coordinate),
      data.agen)
  }

  function ProductDto(response: ProductsResponse): Product
  {
    var data := response.data;
    Product(data.productId, data.productName, Stock(data.stockAvailable, data.stockRedeem))
  }

  /**
   * The order record of a transaction response.  The customer's quota is
   * decremented locally by the ordered quantity, with no lower bound.
   */
  function OrderDto(response: TransactionResponse, customer: Customer, quantity: int): Order
  {
    Order(
      response.data.transactionId,
      OrderCustomer(customer.nationalityId, customer.name, customer.quota - quantity),
      OrderProduct(ProductId, ProductName, quantity))
  }

  // ---------------------------------------------------------------------------
  // The session round trip

  /** Deserialising a freshly built session gives back the login body, field for field. */
  lemma AuthRoundTrip(response: LoginResponse, cookies: seq<Cookie>)
    ensures RevertAuthDto(AuthDto(response, cookies)) == response.data
  {
  }

  /** Rebuilding a session from its serialised body and its own cookies reproduces it. */
  lemma AuthReverseRoundTrip(auth: Auth, success: bool, message: string, code: int)
    ensures AuthDto(SuccessResponse(success, RevertAuthDto(auth), message, code), auth.cookies) == auth
  {
  }

  /** The cookie list is carried over unchanged, and nothing of the envelope is kept. */
  lemma AuthKeepsCookies(response: LoginResponse, cookies: seq<Cookie>)
    ensures AuthDto(response, cookies).cookies == cookies
    ensures forall other: LoginResponse :: other.data == response.data ==> AuthDto(other, cookies) == AuthDto(response, cookies)
  {
  }

  /** Two sessions that serialise alike differ at most in their cookies. */
  lemma RevertAuthInjective(a: Auth, b: Auth)
    ensures RevertAuthDto(a) == RevertAuthDto(b) <==> a.accessToken == b.accessToken && a.settings == b.settings
  {
  }

  /** Building a session loses nothing: equal sessions come from equal login bodies and cookies. */
  lemma AuthDtoInjective(r1: LoginResponse, c1: seq<Cookie>, r2: LoginResponse, c2: seq<Cookie>)
    ensures AuthDto(r1, c1) == AuthDto(r2, c2) <==> r1.data == r2.data && c1 == c2
  {
    if AuthDto(r1, c1) == AuthDto(r2, c2) {
      AuthRoundTrip(r1, c1);
      AuthRoundTrip(r2, c2);
    }
  }

  // ---------------------------------------------------------------------------
  // Projections

  /**
   * The customer's identifier is the submitted one, whatever the response
   * reports; name and quota come from the response.
   */
  lemma CustomerFields(response: VerifyNationalityIdResponse, nationalityId: string)
    ensures CustomerDto(response, nationalityId).nationalityId == nationalityId
    ensures CustomerDto(response, nationalityId).name == response.data.name
    ensures CustomerDto(response, nationalityId).quota == response.data.quotaRemaining.parent
    ensures forall other: VerifyNationalityIdResponse ::
              other.data == response.data.(nationalityId := other.data.nationalityId) ==>
              CustomerDto(other, nationalityId) == CustomerDto(response, nationalityId)
  {
  }

  /** A classification name is in the customer's types exactly when the response lists it. */
  lemma CustomerTypesMembership(response: VerifyNationalityIdResponse, nationalityId: string, t: CustomerType)
    ensures t in CustomerDto(response, nationalityId).types <==>
            exists i :: 0 <= i < |response.data.customerTypes| && response.data.customerTypes[i].name == t
  {
    var c := CustomerDto(response, nationalityId);
    if t in c.types {
      var i :| 0 <= i < |c.types| && c.types[i] == t;
      assert response.data.customerTypes[i].name == t;
    }
  }

  /** Every profile field is copied from its one response field. */
  lemma ProfileFields(response: ProfileResponse)
    ensures var p, d := ProfileDto(response), response.data;
      && p.person == Person(d.nationalityId, d.name, d.email, d.phoneNumber)
      && p.location.address == d.address
      && p.location.village == d.villageName
      && p.location.district == d.ditrictName
      && p.location.city == d.city
      && p.location.province == d.province
      && p.location.zipCode == d.zipcode
      && p.location.coordinate == d.coordinate
      && p.agent == d.agen
  {
  }

  /** The store's own fields (store name, bank, registration, ...) do not reach the profile. */
  lemma ProfileIgnoresStoreFields(r1: ProfileResponse, r2: ProfileResponse)
    requires r2.data == r1.data.(registrationId := r2.data.registrationId, storeName := r2.data.storeName,
                                 storeAddress := r2.data.storeAddress, storePhoneNumber := r2.data.storePhoneNumber,
                                 tid := r2.data.tid, spbu := r2.data.spbu, merchantType := r2.data.merchantType,
                                 midMap := r2.data.midMap, isSubsidiProduct := r2.data.isSubsidiProduct,
                                 isActiveMyptm := r2.data.isActiveMyptm,
                                 isAvailableTransaction := r2.data.isAvailableTransaction)
    ensures ProfileDto(r1) == ProfileDto(r2)
  {
  }

  /** Identifier, name and both stock figures are copied unaltered. */
  lemma ProductFields(response: ProductsResponse)
    ensures ProductDto(response).id == response.data.productId
    ensures ProductDto(response).name == response.data.productName
    ensures ProductDto(response).stock.available == response.data.stockAvailable
    ensures ProductDto(response).stock.redeem == response.data.stockRedeem
  {
  }

  // ---------------------------------------------------------------------------
  // Orders

  /** The order echoes the transaction, the customer and the quantity; the product is the fixed one. */
  lemma OrderFields(response: TransactionResponse, customer: Customer, quantity: int)
    ensures var o := OrderDto(response, customer, quantity);
      && o.id == response.data.transactionId
      && o.customer.nationalityId == customer.nationalityId
      && o.customer.name == customer.name
      && o.product == OrderProduct(ProductId, ProductName, quantity)
  {
  }

  /**
   * The remaining quota is the old one less the quantity: it stays
   * non-negative exactly when the quantity does not exceed the quota, and an
   * order of a positive quantity lowers it.
   */
  lemma OrderQuota(response: TransactionResponse, customer: Customer, quantity: int)
    ensures OrderDto(response, customer, quantity).customer.quota + quantity == customer.quota
    ensures OrderDto(response, customer, quantity).customer.quota >= 0 <==> quantity <= customer.quota
    ensures quantity > 0 ==> OrderDto(response, customer, quantity).customer.quota < customer.quota
  {
  }
}
