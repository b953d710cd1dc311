/** The request bodies of RocklandOrderAPI/Models, as the model binder hands them over. */
module Models {
  import opened Common
  import opened Data

  /** An order submission (OrderModel.cs). `PurchaseOrderPDF` is the decoded byte array,
      `None` when the client sent `null`. */
  datatype OrderModel = OrderModel(
    Details: seq<OrderDetail>,
    PurchaseOrderPDF: Option<seq<bv8>>,
    OrderTotal: real,
    ShippingAddress1: NullableString,
    ShippingAddress2: NullableString,
    ShippingCity: NullableString,
    ShippingState: NullableString,
    ShippingPostalCode: NullableString,
    ShippingOptionId: int)

  /** A registration request (RegisterModel.cs); any string field may be absent. */
  datatype RegisterModel = RegisterModel(
    Username: NullableString,
    Password: NullableString,
    Email: NullableString,
    FirstName: NullableString,
    MiddleName: NullableString,
    LastName: NullableString,
    Suffix: NullableString,
    Address1: NullableString,
    Address2: NullableString,
    City: NullableString,
    State: NullableString,
    PostalCode: NullableString,
    TimeZoneId: NullableString,
    OptInAccountNotices: bool,
    OptInProductNotices: bool)

  /** A login request. LoginModel.cs is not part of this model; its two fields are the
      ones AuthController.Login reads. */
  datatype LoginModel = LoginModel(Username: string, Password: string)
}
