/**
 * The portal's response bodies as the browser intercepts them.  Fields whose
 * type the portal leaves open (`any`) are not modelled.
 */
module Responses {
  import opened Types

  /** The envelope every successful portal response shares. */
  datatype SuccessResponse<+T> = SuccessResponse(success: bool, data: T, message: string, code: int)

  /** The body of the login endpoint's response. */
  datatype LoginData = LoginData(
    accessToken: string,
    isLogin: bool,
    myptmMerchantType: string,
    isDefaultPin: bool,
    isNewUserMyptm: bool,
    isSubsidiProduct: bool)

  /** One quota figure, split by holder. */
  datatype QuotaRemaining = QuotaRemaining(typeQuota: int, parent: int, retailer: int)

  datatype Merchant = Merchant(name: string, mid: string, address: string)

  /** One classification the portal grants a customer. */
  datatype CustomerTypeData = CustomerTypeData(
    name: string,
    sourceTypeId: int,
    status: int,
    merchant: Merchant)

  datatype VerifyNationalityIdData = VerifyNationalityIdData(
    nationalityId: string,
    familyId: string,
    name: string,
    email: string,
    phoneNumber: string,
    quotaRemaining: QuotaRemaining,
    quotaRemainingLastMonth: QuotaRemaining,
    customerTypes: seq<CustomerTypeData>,
    channelInject: string,
    isAgreedTermsConditions: bool,
    isCompleted: bool,
    isSubsidi: bool)

  datatype ProfileData = ProfileData(
    registrationId: string,
    name: string,
    address: string,
    city: string,
    province: string,
    coordinate: string,
    storeName: string,
    storeAddress: string,
    phoneNumber: string,
    tid: string,
    spbu: string,
    merchantType: string,
    midMap: string,
    isSubsidiProduct: bool,
    storePhoneNumber: string,
    email: string,
    nationalityId: string,
    ditrictName: string,
    villageName: string,
    zipcode: string,
    agen: Agent,
    isActiveMyptm: bool,
    isAvailableTransaction: bool)

  datatype ProductData = ProductData(
    registrationId: string,
    storeName: string,
    productId: string,
    productName: string,
    stockAvailable: int,
    stockRedeem: int,
    sold: int,
    modal: int,
    price: int,
    productMinPrice: int,
    productMaxPrice: int,
    image: string,
    stockDate: string,
    lastStock: int,
    lastStockDate: string,
    lastSyncAt: string)

  /** The body of the transaction endpoint's response: only its identifier is read. */
  datatype TransactionData = TransactionData(transactionId: string)

  type LoginResponse = SuccessResponse<LoginData>
  type VerifyNationalityIdResponse = SuccessResponse<VerifyNationalityIdData>
  type ProfileResponse = SuccessResponse<ProfileData>
  type ProductsResponse = SuccessResponse<ProductData>
  type TransactionResponse = SuccessResponse<TransactionData>
}
