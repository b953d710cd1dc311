/** The persisted entities of RocklandOrderAPI/Data. */
module Data {
  import opened Common

  /** Product.cs is not part of this model: a line item keeps its product by key only,
      and nothing in the order gate reads a product's other fields. */
  datatype Product = Product(Id: int)

  /** One line of an order (OrderDetail.cs). Money is exact: C# `decimal` is base 10,
      so an amount is a Dafny `real`. */
  datatype OrderDetail = OrderDetail(
    Id: int,
    OrderId: int,
    Item: Product,
    Quantity: int,
    TotalPrice: real)

  /** A catalog shipping choice (ShippingOptions.cs). */
  datatype ShippingOption = ShippingOption(
    Id: int,
    Type: string,
    Description: string,
    Amount: real)

  /** The fixed set of order states (UserOrder.cs). */
  datatype OrderStatus = New | Processing | Shipped | Hold | Cancelled

  /** An account (ApplicationUser.cs) with the identity fields of its base class that this
      core reads merged in: `Id`, `UserName` and `Email`. Every string the source declares
      as `string` may hold `null` at run time, so each is a `NullableString`; `Id` is
      generated by the identity library and never null. */
  datatype ApplicationUser = ApplicationUser(
    Id: string,
    UserName: NullableString,
    Email: NullableString,
    FirstName: NullableString,
    MiddleName: NullableString,
    LastName: NullableString,
    Suffix: NullableString,
    CompanyName: NullableString,
    Address1: NullableString,
    Address2: NullableString,
    City: NullableString,
    State: NullableString,
    PostalCode: NullableString,
    TimeZoneId: NullableString,
    OptInAccountNotices: bool,
    OptInProductNotices: bool)

  /** A stored order (UserOrder.cs). The key `Id` is generated by the database and is not
      modelled. Only orders that passed the address guard are ever built, so the four
      required address fields hold plain strings; `ShippingAddress2` is copied unchecked. */
  datatype UserOrder = UserOrder(
    User: ApplicationUser,
    Details: seq<OrderDetail>,
    PurchaseOrderPDF: seq<bv8>,
    OrderTotal: real,
    ShippingAddress1: string,
    ShippingAddress2: NullableString,
    ShippingCity: string,
    ShippingState: string,
    ShippingPostalCode: string,
    ShippingOption: ShippingOption,
    OrderDate: DateTime,
    Status: OrderStatus)
}
