/** The order-submission gate of OrderController: the PDF check, the ordered chain of
    guards a submission must pass, and the one write that follows when all of them do. */
module Orders {
  import opened Common
  import opened Data
  import opened Models

  /** The PDF size ceiling used when the configuration gives none: 2 MiB. */
  const DefaultFileSizeLimit: int := 2097152

  /** The four leading bytes of every PDF file: ASCII "%PDF". */
  const PdfSignature: seq<bv8> := [0x25, 0x50, 0x44, 0x46]

  /** `config.GetValue<long>("FileSizeLimit", 2097152)`. */
  function FileSizeLimit(configured: Option<int>): (limit: int)
    ensures configured.Some? ==> limit == configured.value
    ensures configured.None? ==> limit == 2 * 1024 * 1024
  {
    if configured.Some? then configured.value else DefaultFileSizeLimit
  }

  lemma DefaultLimitIsTwoMebibytes()
    ensures FileSizeLimit(None) == 2 * 1024 * 1024
  {
  }

  // ---------------------------------------------------------------------------
  // The PDF check

  /** `BinaryReader.ReadBytes(count)` on a fresh stream: the first `count` bytes, or all of
      them when the stream is shorter. */
  function ReadBytes(s: seq<bv8>, count: nat): (r: seq<bv8>)
    ensures r <= s
    ensures |r| == if |s| < count then |s| else count
  {
    if |s| < count then s else s[..count]
  }

  /** `_validatePDF`: the header read from the file equals the PDF signature, and the file
      is strictly smaller than the limit. */
  function ValidatePdf(fileContents: seq<bv8>, fileSizeLimit: int): (ok: bool)
    ensures ok <==>
      && |fileContents| >= 4
      && fileContents[0] == 0x25 && fileContents[1] == 0x50
      && fileContents[2] == 0x44 && fileContents[3] == 0x46
      && |fileContents| < fileSizeLimit
  {
    ReadBytes(fileContents, |PdfSignature|) == PdfSignature && |fileContents| < fileSizeLimit
  }

  /** A file that does not start with "%PDF" is rejected whatever its size. */
  lemma WrongSignatureRejected(fileContents: seq<bv8>, fileSizeLimit: int)
    requires |fileContents| >= 4 ==> fileContents[..4] != PdfSignature
    ensures !ValidatePdf(fileContents, fileSizeLimit)
  {
  }

  /** A file of the limit's size or more is rejected even with a valid signature. */
  lemma OversizedRejected(fileContents: seq<bv8>, fileSizeLimit: int)
    requires |fileContents| >= fileSizeLimit
    ensures !ValidatePdf(fileContents, fileSizeLimit)
  {
  }

  /** Any input under four bytes is rejected, as is every input when the limit is at most
      four, since no file can then both hold the signature and stay under the limit. */
  lemma ShortOrTinyLimitRejected(fileContents: seq<bv8>, fileSizeLimit: int)
    requires |fileContents| < 4 || fileSizeLimit <= 4
    ensures !ValidatePdf(fileContents, fileSizeLimit)
  {
  }

  /** Every signed file under the limit is accepted: the signature and the size are the
      only two things checked. */
  lemma SignedSmallFileAccepted(fileContents: seq<bv8>, fileSizeLimit: int)
    requires |fileContents| >= 4 && fileContents[..4] == PdfSignature
    requires |fileContents| < fileSizeLimit
    ensures ValidatePdf(fileContents, fileSizeLimit)
  {
  }

  // ---------------------------------------------------------------------------
  // The order total

  /** `model.Details.Sum(x => x.TotalPrice)`, accumulated left to right from zero. */
  function DetailsSum(details: seq<OrderDetail>): (sum: real)
    ensures |details| == 1 ==> sum == details[0].TotalPrice
    ensures (forall i :: 0 <= i < |details| ==> details[i].TotalPrice >= 0.0) ==> sum >= 0.0
  {
    if details == [] then 0.0
    else DetailsSum(details[..|details| - 1]) + details[|details| - 1].TotalPrice
  }

  /** The sum over two runs of lines is the sum of their sums. */
  lemma {:induction false} DetailsSumAppend(a: seq<OrderDetail>, b: seq<OrderDetail>)
    ensures DetailsSum(a + b) == DetailsSum(a) + DetailsSum(b)
    decreases |b|
  {
    if b == [] {
      assert a + b == a;
    } else {
      var b' := b[..|b| - 1];
      assert (a + b)[..|a + b| - 1] == a + b';
      assert (a + b)[|a + b| - 1] == b[|b| - 1];
      DetailsSumAppend(a, b');
    }
  }

  /** The arithmetic cross-check: line totals plus shipping equal the submitted total,
      compared exactly. */
  predicate TotalMatches(model: OrderModel, option: ShippingOption): (matches: bool)
    ensures matches && (forall i :: 0 <= i < |model.Details| ==> model.Details[i].TotalPrice >= 0.0) ==>
      model.OrderTotal >= option.Amount
  {
    DetailsSum(model.Details) + option.Amount == model.OrderTotal
  }

  /** The invariant every stored order is meant to satisfy. */
  predicate TotalConsistent(order: UserOrder)
  {
    order.OrderTotal == DetailsSum(order.Details) + order.ShippingOption.Amount
  }

  // ---------------------------------------------------------------------------
  // The guard chain, stated as an ordered list

  /** What `CreateOrder` answers; the strings are the source's. */
  datatype OrderResult = Ok | BadRequest(message: string) | Unauthorized | ServerError(message: string)

  const OrderErrorMessage: string := "Order Error: An unexpected error occurred while creating an order."

  /** Everything `CreateOrder` consults besides its configuration: the bound submission
      (`None` for `null`), the ShippingOptions table by key, the `NameIdentifier` claim of
      the caller and the accounts by id. */
  datatype OrderRequest = OrderRequest(
    model: Option<OrderModel>,
    shippingOptions: map<int, ShippingOption>,
    callerId: NullableString,
    usersById: map<string, ApplicationUser>)

  datatype Guard = OrderPresent | AddressGiven | PdfAccepted | ShippingOptionFound | TotalAgrees | CallerKnown

  /** The order in which the guards run. */
  const GuardOrder: seq<Guard> := [OrderPresent, AddressGiven, PdfAccepted, ShippingOptionFound, TotalAgrees, CallerKnown]

  /** Every guard runs, once, and the identity check comes after all five input checks. */
  lemma GuardOrderRunsEachGuardOnce()
    ensures forall g: Guard :: g in GuardOrder
    ensures forall i, j :: 0 <= i < j < |GuardOrder| ==> GuardOrder[i] != GuardOrder[j]
    ensures GuardOrder[|GuardOrder| - 1] == CallerKnown
  {
    forall g: Guard ensures g in GuardOrder {
      match g
      case OrderPresent => assert GuardOrder[0] == g;
      case AddressGiven => assert GuardOrder[1] == g;
      case PdfAccepted => assert GuardOrder[2] == g;
      case ShippingOptionFound => assert GuardOrder[3] == g;
      case TotalAgrees => assert GuardOrder[4] == g;
      case CallerKnown => assert GuardOrder[5] == g;
    }
  }

  /** Address2 is deliberately absent: it is optional. */
  predicate AddressGivenIn(m: OrderModel): (given: bool)
    ensures given ==>
      && m.ShippingAddress1.Some? && |m.ShippingAddress1.value| > 0
      && m.ShippingCity.Some? && |m.ShippingCity.value| > 0
      && m.ShippingState.Some? && |m.ShippingState.value| > 0
      && m.ShippingPostalCode.Some? && |m.ShippingPostalCode.value| > 0
  {
    && !IsNullOrEmpty(m.ShippingAddress1)
    && !IsNullOrEmpty(m.ShippingCity)
    && !IsNullOrEmpty(m.ShippingState)
    && !IsNullOrEmpty(m.ShippingPostalCode)
  }

  /** Whether guard `g` lets request `q` through. */
  predicate Holds(g: Guard, q: OrderRequest, fileSizeLimit: int): (passes: bool)
    ensures passes && g != CallerKnown ==> q.model.Some?
    ensures passes && g == TotalAgrees ==> q.model.value.ShippingOptionId in q.shippingOptions
    ensures passes && g == CallerKnown ==> q.callerId.Some? && q.callerId.value in q.usersById
  {
    match g
    case OrderPresent => q.model.Some?
    case AddressGiven => q.model.Some? && AddressGivenIn(q.model.value)
    case PdfAccepted =>
      q.model.Some? && q.model.value.PurchaseOrderPDF.Some?
      && ValidatePdf(q.model.value.PurchaseOrderPDF.value, fileSizeLimit)
    case ShippingOptionFound => q.model.Some? && q.model.value.ShippingOptionId in q.shippingOptions
    case TotalAgrees =>
      q.model.Some? && q.model.value.ShippingOptionId in q.shippingOptions
      && TotalMatches(q.model.value, q.shippingOptions[q.model.value.ShippingOptionId])
    case CallerKnown => !IsNullOrEmpty(q.callerId) && q.callerId.value in q.usersById
  }

  /** The answer a failing guard gives. */
  function Rejection(g: Guard): (reply: OrderResult)
    ensures reply != Ok
    ensures reply.BadRequest? <==> g != CallerKnown
    ensures reply == Unauthorized <==> g == CallerKnown
  {
    match g
    case OrderPresent => BadRequest("Invalid order data.")
    case AddressGiven => BadRequest("Shipping address is required.")
    case PdfAccepted => BadRequest("Invalid purchase order file.")
    case ShippingOptionFound => BadRequest("A valid shipping option is required.")
    case TotalAgrees => BadRequest("Order total does not match the expected amount.")
    case CallerKnown => Unauthorized
  }

  /** The position of the first guard in `gs` that fails, or `|gs|` when all hold. */
  function FirstFailing(gs: seq<Guard>, q: OrderRequest, fileSizeLimit: int): (k: nat)
    ensures k <= |gs|
    ensures forall i :: 0 <= i < k ==> Holds(gs[i], q, fileSizeLimit)
    ensures k < |gs| ==> !Holds(gs[k], q, fileSizeLimit)
  {
    if gs == [] then 0
    else if !Holds(gs[0], q, fileSizeLimit) then 0
    else 1 + FirstFailing(gs[1..], q, fileSizeLimit)
  }

  /** The outcome of the gate: the answer of the first failing guard, or the shipping option
      and the account the order will reference. */
  datatype Verdict = Rejected(reply: OrderResult) | Accepted(option: ShippingOption, user: ApplicationUser)

  function Decide(q: OrderRequest, fileSizeLimit: int): (v: Verdict)
    ensures v.Accepted? ==>
      && q.model.Some? && AddressGivenIn(q.model.value)
      && q.model.value.PurchaseOrderPDF.Some?
      && ValidatePdf(q.model.value.PurchaseOrderPDF.value, fileSizeLimit)
      && q.model.value.ShippingOptionId in q.shippingOptions
      && v.option == q.shippingOptions[q.model.value.ShippingOptionId]
      && TotalMatches(q.model.value, v.option)
      && !IsNullOrEmpty(q.callerId) && q.callerId.value in q.usersById
      && v.user == q.usersById[q.callerId.value]
  {
    var k := FirstFailing(GuardOrder, q, fileSizeLimit);
    if k < |GuardOrder| then Rejected(Rejection(GuardOrder[k]))
    else
      assert Holds(GuardOrder[1], q, fileSizeLimit) && Holds(GuardOrder[2], q, fileSizeLimit);
      assert Holds(GuardOrder[3], q, fileSizeLimit) && Holds(GuardOrder[4], q, fileSizeLimit);
      assert Holds(GuardOrder[5], q, fileSizeLimit);
      Accepted(q.shippingOptions[q.model.value.ShippingOptionId], q.usersById[q.callerId.value])
  }

  /** Each failure has its own answer, so the reply tells which guard failed. */
  lemma RejectionsDistinct(g: Guard, h: Guard)
    requires g != h
    ensures Rejection(g) != Rejection(h)
  {
  }

  /** A submission is accepted exactly when every guard holds. */
  lemma AcceptedIffAllGuardsHold(q: OrderRequest, fileSizeLimit: int)
    ensures Decide(q, fileSizeLimit).Accepted? <==>
      forall g :: g in GuardOrder ==> Holds(g, q, fileSizeLimit)
  {
  }

  /** The first failing guard decides: when guard number `k` fails and all before it hold,
      the answer is that guard's, whatever the later guards would say. */
  lemma FirstFailureDecides(q: OrderRequest, fileSizeLimit: int, k: nat)
    requires k < |GuardOrder|
    requires forall i :: 0 <= i < k ==> Holds(GuardOrder[i], q, fileSizeLimit)
    requires !Holds(GuardOrder[k], q, fileSizeLimit)
    ensures Decide(q, fileSizeLimit) == Rejected(Rejection(GuardOrder[k]))
  {
  }

  /** The identity check comes last: a request is answered `Unauthorized` only when every
      input check passed and the caller's id is missing or unknown, and a missing or
      unknown caller behind valid input is never answered with `BadRequest`. */
  lemma UnauthorizedOnlyAfterInputChecks(q: OrderRequest, fileSizeLimit: int)
    ensures Decide(q, fileSizeLimit) == Rejected(Unauthorized) <==>
      && (forall i :: 0 <= i < 5 ==> Holds(GuardOrder[i], q, fileSizeLimit))
      && (IsNullOrEmpty(q.callerId) || q.callerId.value !in q.usersById)
  {
  }

  /** An input guard that fails decides the answer whoever the caller is. */
  lemma InputErrorIndependentOfCaller(q: OrderRequest, callerId: NullableString, usersById: map<string, ApplicationUser>, fileSizeLimit: int)
    requires Decide(q, fileSizeLimit).Rejected?
    requires Decide(q, fileSizeLimit).reply.BadRequest?
    ensures Decide(q.(callerId := callerId, usersById := usersById), fileSizeLimit) == Decide(q, fileSizeLimit)
  {
  }

  /** Address2 is never checked: whatever it holds, the verdict is the same. */
  lemma Address2NeverChecked(q: OrderRequest, address2: NullableString, fileSizeLimit: int)
    requires q.model.Some?
    ensures Decide(q.(model := Some(q.model.value.(ShippingAddress2 := address2))), fileSizeLimit) == Decide(q, fileSizeLimit)
  {
  }

  /** Without a matching total there is no order: an accepted submission's lines plus its
      shipping amount equal its total. */
  lemma AcceptedTotalMatches(q: OrderRequest, fileSizeLimit: int)
    requires Decide(q, fileSizeLimit).Accepted?
    ensures DetailsSum(q.model.value.Details) + Decide(q, fileSizeLimit).option.Amount == q.model.value.OrderTotal
  {
  }

  /** A well-formed submission whose lines sum to 100.00 with 10.00 shipping but a total of
      109.99 is turned away with the total message. */
  lemma TotalMismatchExample(pdf: seq<bv8>, caller: ApplicationUser)
    requires |pdf| >= 4 && pdf[..4] == PdfSignature && |pdf| < DefaultFileSizeLimit
    ensures
      var lines := [OrderDetail(1, 0, Product(7), 2, 60.00), OrderDetail(2, 0, Product(8), 1, 40.00)];
      var m := OrderModel(lines, Some(pdf), 109.99, Some("1 Main"), None, Some("X"), Some("NY"), Some("10001"), 3);
      var q := OrderRequest(Some(m), map[3 := ShippingOption(3, "Ground", "Standard", 10.00)], Some(caller.Id), map[caller.Id := caller]);
      Decide(q, DefaultFileSizeLimit) == Rejected(BadRequest("Order total does not match the expected amount."))
  {
    var lines := [OrderDetail(1, 0, Product(7), 2, 60.00), OrderDetail(2, 0, Product(8), 1, 40.00)];
    var m := OrderModel(lines, Some(pdf), 109.99, Some("1 Main"), None, Some("X"), Some("NY"), Some("10001"), 3);
    var q := OrderRequest(Some(m), map[3 := ShippingOption(3, "Ground", "Standard", 10.00)], Some(caller.Id), map[caller.Id := caller]);
    assert lines[..1] == [lines[0]];
    assert [lines[0]][..0] == [];
    assert DetailsSum(lines) == 100.00;
    SignedSmallFileAccepted(pdf, DefaultFileSizeLimit);
    FirstFailureDecides(q, DefaultFileSizeLimit, 4);
  }

  /** Line items are not checked: a line with quantity zero and a negative price passes the
      gate as long as the totals agree. */
  lemma UncheckedLineItemAccepted(pdf: seq<bv8>, caller: ApplicationUser)
    requires |pdf| >= 4 && pdf[..4] == PdfSignature && |pdf| < DefaultFileSizeLimit
    requires caller.Id != ""
    ensures
      var m := OrderModel([OrderDetail(1, 0, Product(7), 0, -5.00)], Some(pdf), 5.00, Some("1 Main"), None, Some("X"), Some("NY"), Some("10001"), 3);
      var q := OrderRequest(Some(m), map[3 := ShippingOption(3, "Ground", "Standard", 10.00)], Some(caller.Id), map[caller.Id := caller]);
      Decide(q, DefaultFileSizeLimit).Accepted?
  {
  }

  // ---------------------------------------------------------------------------
  // Building and storing the order

  /** The order `CreateOrder` builds: the submission's lines, file, total and address as
      given, the resolved shipping option and account, the write-time date, status New. */
  function NewOrder(m: OrderModel, option: ShippingOption, user: ApplicationUser, now: DateTime): (o: UserOrder)
    requires AddressGivenIn(m) && m.PurchaseOrderPDF.Some?
    ensures TotalMatches(m, option) ==> TotalConsistent(o)
    ensures o.Status == New && o.OrderDate == now
    ensures o.User == user && o.ShippingOption == option
    ensures Some(o.PurchaseOrderPDF) == m.PurchaseOrderPDF && o.Details == m.Details
  {
    UserOrder(
      User := user,
      Details := m.Details,
      PurchaseOrderPDF := m.PurchaseOrderPDF.value,
      OrderTotal := m.OrderTotal,
      ShippingAddress1 := m.ShippingAddress1.value,
      ShippingAddress2 := m.ShippingAddress2,
      ShippingCity := m.ShippingCity.value,
      ShippingState := m.ShippingState.value,
      ShippingPostalCode := m.ShippingPostalCode.value,
      ShippingOption := option,
      OrderDate := now,
      Status := New)
  }

  /** An accepted submission yields an order that keeps the total invariant, is New, and
      has as many lines, and the same total, as the submission. */
  lemma AcceptedOrderWellFormed(q: OrderRequest, fileSizeLimit: int, now: DateTime)
    requires Decide(q, fileSizeLimit).Accepted?
    ensures AddressGivenIn(q.model.value) && q.model.value.PurchaseOrderPDF.Some?
    ensures
      var o := NewOrder(q.model.value, Decide(q, fileSizeLimit).option, Decide(q, fileSizeLimit).user, now);
      && TotalConsistent(o)
      && o.Status == New
      && |o.Details| == |q.model.value.Details|
      && o.OrderTotal == q.model.value.OrderTotal
      && o.User == q.usersById[q.callerId.value]
  {
  }

  /** The controller with the one table it writes: the rows of `UserOrders`. */
  class OrderController {
    const fileSizeLimit: int
    var userOrders: seq<UserOrder>

    constructor (configuredLimit: Option<int>, storedOrders: seq<UserOrder>)
      ensures fileSizeLimit == FileSizeLimit(configuredLimit)
      ensures configuredLimit.None? ==> fileSizeLimit == 2097152
      ensures userOrders == storedOrders
    {
      fileSizeLimit := FileSizeLimit(configuredLimit);
      userOrders := storedOrders;
    }

    /** `CreateOrder`: run the guards in order, returning at the first that fails; build the
        order and save it. `saved` says whether `SaveChangesAsync` completes; when it throws
        nothing is stored and the answer is the generic error. The order is appended only
        when every guard passes and the save completes. */
    method CreateOrder(model: Option<OrderModel>, shippingOptions: map<int, ShippingOption>,
                       callerId: NullableString, usersById: map<string, ApplicationUser>,
                       now: DateTime, saved: bool)
      returns (r: OrderResult)
      modifies this
      ensures
        var v := Decide(OrderRequest(model, shippingOptions, callerId, usersById), fileSizeLimit);
        && r == (if v.Rejected? then v.reply else if saved then Ok else ServerError(OrderErrorMessage))
        && userOrders == if v.Accepted? && saved
                         then old(userOrders) + [NewOrder(model.value, v.option, v.user, now)]
                         else old(userOrders)
    {
      ghost var q := OrderRequest(model, shippingOptions, callerId, usersById);
      if model.None? {
        FirstFailureDecides(q, fileSizeLimit, 0);
        return BadRequest("Invalid order data.");
      }
      var m := model.value;
      if IsNullOrEmpty(m.ShippingAddress1) || IsNullOrEmpty(m.ShippingCity)
         || IsNullOrEmpty(m.ShippingState) || IsNullOrEmpty(m.ShippingPostalCode) {
        FirstFailureDecides(q, fileSizeLimit, 1);
        return BadRequest("Shipping address is required.");
      }
      if m.PurchaseOrderPDF.None? || !ValidatePdf(m.PurchaseOrderPDF.value, fileSizeLimit) {
        FirstFailureDecides(q, fileSizeLimit, 2);
        return BadRequest("Invalid purchase order file.");
      }
      if m.ShippingOptionId !in shippingOptions {
        FirstFailureDecides(q, fileSizeLimit, 3);
        return BadRequest("A valid shipping option is required.");
      }
      var shippingOption := shippingOptions[m.ShippingOptionId];
      if DetailsSum(m.Details) + shippingOption.Amount != m.OrderTotal {
        FirstFailureDecides(q, fileSizeLimit, 4);
        return BadRequest("Order total does not match the expected amount.");
      }
      if IsNullOrEmpty(callerId) {
        FirstFailureDecides(q, fileSizeLimit, 5);
        return Unauthorized;
      }
      if callerId.value !in usersById {
        FirstFailureDecides(q, fileSizeLimit, 5);
        return Unauthorized;
      }
      var user := usersById[callerId.value];
      forall g | g in GuardOrder ensures Holds(g, q, fileSizeLimit) {
      }
      AcceptedIffAllGuardsHold(q, fileSizeLimit);
      var userOrder := NewOrder(m, shippingOption, user, now);
      if !saved {
        return ServerError(OrderErrorMessage);
      }
      userOrders := userOrders + [userOrder];
      return Ok;
    }
  }
}
