/**
 * The decision logic of the HTTP route handlers that sit on the storage:
 * the role gate, the masking of prices for plain users, the defaults of a new
 * month record, the profit the product routes derive, the lock/unlock/clear
 * routes and the monthly report. Each handler is one atomic step over a
 * `DatabaseStorage` and answers with a status code and a payload.
 */
module Routes {
  import opened Wrappers
  import opened Schema
  import opened Rows
  import opened Storage

  // ---------------------------------------------------------------------------
  // Callers and responses.

  /** The user a session carries. */
  datatype SessionUser = SessionUser(id: int, role: string)

  /** What a handler knows of its caller: whether the session is authenticated, and its user. */
  datatype Requester = Requester(authenticated: bool, user: Option<SessionUser>)

  /** A product as a response shows it; the three prices can be blanked out (null). */
  datatype ProductView = ProductView(
    id: int,
    name: string,
    gameAccount: string,
    gameName: string,
    category: string,
    dateReceived: Timestamp,
    costPrice: Option<real>,
    sellingPrice: Option<real>,
    profit: Option<real>,
    status: string,
    evidence: Option<string>,
    monthRecordId: int,
    userId: int,
    createdAt: Timestamp)

  /** The figures of the monthly report. */
  datatype Report = Report(
    totalProducts: nat,
    soldProducts: nat,
    availableProducts: nat,
    totalCost: real,
    totalRevenue: real,
    totalProfit: real,
    products: seq<Product>)

  datatype Payload =
    | Message(text: string)
    | Succeeded(text: string)
    | ValidationFailed(messages: seq<string>)
    | OneProduct(view: ProductView)
    | ProductList(views: seq<ProductView>)
    | OneMonthRecord(record: MonthRecord)
    | MonthlyFigures(report: Report)
    | NoContent

  datatype Response = Response(status: int, payload: Payload)

  const ProductNotFound: Response := Response(404, Message("Product not found"))
  const MonthRecordNotFound: Response := Response(404, Message("Month record not found"))

  // ---------------------------------------------------------------------------
  // The role gate.

  /** Roles allowed past `checkRole(["admin", "supervisor"])`. */
  const StaffRoles: seq<string> := ["admin", "supervisor"]
  /** Roles allowed past `checkRole(["admin"])`. */
  const AdminRoles: seq<string> := ["admin"]

  /** What `checkRole` decides: answer 401, answer 403, or call the handler. */
  datatype Gate = Unauthenticated | Forbidden | Proceed

  /**
   * 401 exactly when the session is not authenticated, 403 exactly when it is
   * but has no user or the user's role is not listed, and the handler runs
   * otherwise.
   */
  function CheckRole(roles: seq<string>, req: Requester): (g: Gate)
    ensures g == Unauthenticated <==> !req.authenticated
    ensures g == Forbidden <==> req.authenticated && (req.user.None? || req.user.value.role !in roles)
    ensures g == Proceed <==> req.authenticated && req.user.Some? && req.user.value.role in roles
  {
    if !req.authenticated then Unauthenticated
    else if req.user.None? || req.user.value.role !in roles then Forbidden
    else Proceed
  }

  /** Listing more roles never turns a caller away who was let through. */
  lemma CheckRoleWider(roles: seq<string>, wider: seq<string>, req: Requester)
    requires forall r :: r in roles ==> r in wider
    ensures CheckRole(roles, req) == Proceed ==> CheckRole(wider, req) == Proceed
    ensures CheckRole(wider, req) == Unauthenticated <==> CheckRole(roles, req) == Unauthenticated
  {
  }

  /** The answer of a gate that does not let the caller through. */
  function Refusal(g: Gate): (resp: Response)
    requires g != Proceed
    ensures resp.status == (if g == Unauthenticated then 401 else 403)
  {
    if g == Unauthenticated then Response(401, Message("Not authenticated"))
    else Response(403, Message("Insufficient permissions"))
  }

  // ---------------------------------------------------------------------------
  // Masking of prices.

  /** Product `p` shown in full. */
  function View(p: Product): ProductView {
    ProductView(p.id, p.name, p.gameAccount, p.gameName, p.category, p.dateReceived,
      Some(p.costPrice), Some(p.sellingPrice), Some(p.profit),
      p.status, p.evidence, p.monthRecordId, p.userId, p.createdAt)
  }

  /** The product a view shows, when none of its prices is blanked out. */
  function Shown(v: ProductView): (p: Option<Product>)
    ensures p.Some? <==> v.costPrice.Some? && v.sellingPrice.Some? && v.profit.Some?
    ensures p.Some? ==> View(p.value) == v
  {
    if v.costPrice.Some? && v.sellingPrice.Some? && v.profit.Some? then
      Some(Product(v.id, v.name, v.gameAccount, v.gameName, v.category, v.dateReceived,
        v.costPrice.value, v.sellingPrice.value, v.profit.value,
        v.status, v.evidence, v.monthRecordId, v.userId, v.createdAt))
    else None
  }

  /** A full view gives the product back. */
  lemma ShownView(p: Product)
    ensures Shown(View(p)) == Some(p)
  {
  }

  /** Whether the caller is a plain user, whose responses hide the prices. */
  predicate IsPlainUser(req: Requester) {
    req.user.Some? && req.user.value.role == "user"
  }

  /** Blanks out the cost price, the selling price and the profit. */
  function Blurred(v: ProductView): ProductView {
    v.(costPrice := None, sellingPrice := None, profit := None)
  }

  /**
   * Product `p` as the caller may see it: a plain user gets the three prices
   * as null and every other field as stored; any other caller gets the
   * product unchanged.
   */
  function Masked(req: Requester, p: Product): (v: ProductView)
    ensures IsPlainUser(req) ==> v.costPrice.None? && v.sellingPrice.None? && v.profit.None?
    ensures Blurred(v) == Blurred(View(p))
    ensures Shown(v) == if IsPlainUser(req) then None else Some(p)
  {
    if IsPlainUser(req) then Blurred(View(p)) else View(p)
  }

  /** Masks each product of a list. */
  function MaskedAll(req: Requester, ps: seq<Product>): (vs: seq<ProductView>)
    ensures |vs| == |ps|
    ensures forall i :: 0 <= i < |ps| ==> vs[i] == Masked(req, ps[i])
  {
    seq(|ps|, i requires 0 <= i < |ps| => Masked(req, ps[i]))
  }

  /** GET /api/products: every product, masked for the caller. */
  method ListProducts(store: DatabaseStorage, req: Requester) returns (resp: Response)
    ensures !req.authenticated ==> resp == Response(401, Message("Not authenticated"))
    ensures req.authenticated ==> resp == Response(200, ProductList(MaskedAll(req, store.products)))
  {
    if !req.authenticated {
      return Response(401, Message("Not authenticated"));
    }
    var products := store.GetAllProducts();
    resp := Response(200, ProductList(MaskedAll(req, products)));
  }

  /** GET /api/products/status/:status: the products with that status, masked for the caller. */
  method ListProductsByStatus(store: DatabaseStorage, req: Requester, status: string) returns (resp: Response)
    ensures !req.authenticated ==> resp == Response(401, Message("Not authenticated"))
    ensures req.authenticated ==>
      resp == Response(200, ProductList(MaskedAll(req, Filter(store.products, ProductWithStatus(status)))))
  {
    if !req.authenticated {
      return Response(401, Message("Not authenticated"));
    }
    var products := store.GetProductsByStatus(status);
    resp := Response(200, ProductList(MaskedAll(req, products)));
  }

  /** GET /api/products/:id: one product, masked for the caller, or 404. */
  method ShowProduct(store: DatabaseStorage, req: Requester, id: int) returns (resp: Response)
    ensures !req.authenticated ==> resp == Response(401, Message("Not authenticated"))
    ensures req.authenticated && FindProduct(store.products, id).None? ==> resp == ProductNotFound
    ensures req.authenticated && FindProduct(store.products, id).Some? ==>
      resp == Response(200, OneProduct(Masked(req, FindProduct(store.products, id).value)))
  {
    if !req.authenticated {
      return Response(401, Message("Not authenticated"));
    }
    var product := store.GetProduct(id);
    if product.None? {
      return ProductNotFound;
    }
    resp := Response(200, OneProduct(Masked(req, product.value)));
  }

  // ---------------------------------------------------------------------------
  // POST /api/month-records.

  /** The body of a month-record creation request. */
  datatype MonthRecordBody = MonthRecordBody(
    name: string, startDate: Timestamp, isActive: Option<bool>, isLocked: Option<bool>)

  /**
   * The record the route inserts: no end date, active unless the body says
   * otherwise, unlocked unless the body says otherwise.
   */
  function MonthRecordData(body: MonthRecordBody): (ins: InsertMonthRecord)
    ensures ins.endDate == None
    ensures ins.isActive == Some(body.isActive != Some(false))
    ensures ins.isLocked == Some(body.isLocked == Some(true))
    ensures ins.name == body.name && ins.startDate == body.startDate
  {
    var isActive := if body.isActive.Some? then body.isActive.value else true;
    var isLocked := if body.isLocked.Some? then body.isLocked.value else false;
    InsertMonthRecord(body.name, body.startDate, None, Some(isActive), Some(isLocked))
  }

  /**
   * The route does not keep a locked record inactive: a body asking for both
   * flags creates a record that is locked and active at once.
   */
  lemma CreatedRecordMayBeLockedAndActive(id: int, now: Timestamp)
    ensures var r := NewMonthRecord(MonthRecordData(MonthRecordBody("Month 1", now, Some(true), Some(true))), id, now);
      r.isLocked && r.isActive
  {
  }

  method PostMonthRecord(store: DatabaseStorage, req: Requester, body: MonthRecordBody, now: Timestamp)
    returns (resp: Response)
    requires store.Valid()
    modifies store`monthRecords, store`nextMonthRecordId
    ensures store.Valid()
    ensures CheckRole(StaffRoles, req) != Proceed ==>
      resp == Refusal(CheckRole(StaffRoles, req)) && store.monthRecords == old(store.monthRecords) &&
      store.nextMonthRecordId == old(store.nextMonthRecordId)
    ensures CheckRole(StaffRoles, req) == Proceed ==>
      var r := NewMonthRecord(MonthRecordData(body), old(store.nextMonthRecordId), now);
      resp == Response(201, OneMonthRecord(r)) && store.monthRecords == old(store.monthRecords) + [r] &&
      store.nextMonthRecordId == old(store.nextMonthRecordId) + 1
  {
    var gate := CheckRole(StaffRoles, req);
    if gate != Proceed {
      return Refusal(gate);
    }
    var record := store.CreateMonthRecord(MonthRecordData(body), now);
    resp := Response(201, OneMonthRecord(record));
  }

  // ---------------------------------------------------------------------------
  // POST /api/products.

  /** The messages of the issues, in order. */
  function IssueMessages(issues: seq<ProductIssue>): (ms: seq<string>)
    ensures |ms| == |issues|
    ensures forall i :: 0 <= i < |issues| ==> ms[i] == issues[i].Message()
  {
    seq(|issues|, i requires 0 <= i < |issues| => issues[i].Message())
  }

  /** The body as stored: `userId` is the caller's and `profit` is derived from the prices. */
  function PreparedProduct(body: InsertProduct, userId: int): (ins: InsertProduct)
    ensures ins.userId == userId
    ensures ins.profit == ins.sellingPrice - ins.costPrice
    ensures ins.(userId := body.userId, profit := body.profit) == body
  {
    body.(userId := userId, profit := body.sellingPrice - body.costPrice)
  }

  /**
   * A body that passes validation is stored as a well-formed product of the
   * caller: enumerated category and status, non-negative prices and profit
   * equal to selling price minus cost price, whatever profit the client sent.
   */
  lemma PostedProductWellFormed(body: InsertProduct, userId: int, id: int, now: Timestamp)
    requires ValidateProduct(body) == []
    ensures var p := NewProduct(PreparedProduct(body, userId), id, now);
      WellFormedProduct(p) && p.userId == userId && p.monthRecordId == body.monthRecordId
  {
  }

  method PostProduct(store: DatabaseStorage, req: Requester, body: InsertProduct, now: Timestamp)
    returns (resp: Response)
    requires store.Valid()
    modifies store`products, store`nextProductId
    ensures store.Valid()
    ensures CheckRole(StaffRoles, req) != Proceed ==>
      resp == Refusal(CheckRole(StaffRoles, req)) && store.products == old(store.products) &&
      store.nextProductId == old(store.nextProductId)
    ensures CheckRole(StaffRoles, req) == Proceed && ValidateProduct(body) != [] ==>
      resp == Response(400, ValidationFailed(IssueMessages(ValidateProduct(body)))) &&
      store.products == old(store.products) && store.nextProductId == old(store.nextProductId)
    ensures CheckRole(StaffRoles, req) == Proceed && ValidateProduct(body) == [] ==>
      var p := NewProduct(PreparedProduct(body, req.user.value.id), old(store.nextProductId), now);
      resp == Response(201, OneProduct(View(p))) && store.products == old(store.products) + [p] &&
      store.nextProductId == old(store.nextProductId) + 1
  {
    var gate := CheckRole(StaffRoles, req);
    if gate != Proceed {
      return Refusal(gate);
    }
    var issues := ValidateProduct(body);
    if issues != [] {
      return Response(400, ValidationFailed(IssueMessages(issues)));
    }
    var productData := body;
    productData := productData.(userId := req.user.value.id);
    productData := productData.(profit := productData.sellingPrice - productData.costPrice);
    assert productData == PreparedProduct(body, req.user.value.id);
    var product := store.CreateProduct(productData, now);
    resp := Response(201, OneProduct(View(product)));
  }

  // ---------------------------------------------------------------------------
  // PUT /api/products/:id.

  /** The body mentions a price: `costPrice` or `sellingPrice` is present, even as null. */
  predicate PriceGiven(body: ProductPatch) {
    body.costPrice != Absent || body.sellingPrice != Absent
  }

  /**
   * The patch the route hands to `updateProduct`. With a price in the body,
   * `profit` becomes the merged selling price minus the merged cost price,
   * where a price that is missing or null falls back to the stored one;
   * without a price the body goes through as it came.
   */
  function EffectivePatch(body: ProductPatch, existing: Product): (patch: ProductPatch)
    ensures !PriceGiven(body) ==> patch == body
    ensures PriceGiven(body) ==> patch.(profit := body.profit) == body
    ensures PriceGiven(body) ==>
      patch.profit == Set(Patched(body.sellingPrice, existing.sellingPrice) - Patched(body.costPrice, existing.costPrice))
  {
    if PriceGiven(body) then
      var newCostPrice := if body.costPrice.Set? then body.costPrice.value else existing.costPrice;
      var newSellingPrice := if body.sellingPrice.Set? then body.sellingPrice.value else existing.sellingPrice;
      body.(profit := Set(newSellingPrice - newCostPrice))
    else body
  }

  /** Profit equals selling price minus cost price. */
  predicate ProfitConsistent(p: Product) {
    p.profit == p.sellingPrice - p.costPrice
  }

  /**
   * A price update that the database accepts leaves the product's profit
   * equal to its new selling price minus its new cost price, whatever its
   * profit was before.
   */
  lemma RepricingKeepsProfit(body: ProductPatch, existing: Product)
    requires PriceGiven(body)
    requires !ProductPatchHasNull(EffectivePatch(body, existing))
    ensures ProfitConsistent(ApplyProductPatch(existing, EffectivePatch(body, existing)))
  {
  }

  /** An update that touches neither the prices nor the profit keeps a consistent profit. */
  lemma PlainUpdateKeepsProfit(body: ProductPatch, existing: Product)
    requires !PriceGiven(body) && body.profit.Absent?
    requires ProfitConsistent(existing)
    ensures ProfitConsistent(ApplyProductPatch(existing, EffectivePatch(body, existing)))
  {
  }

  /**
   * Without a price in the body a `profit` field goes through unchecked: a
   * body with only a profit stores that profit whatever the prices are.
   */
  lemma ProfitOnlyUpdateStoredAsGiven(existing: Product, profit: real)
    requires profit != existing.sellingPrice - existing.costPrice
    ensures var body := ProductPatch(Absent, Absent, Absent, Absent, Absent, Absent, Absent,
        Set(profit), Absent, Absent, Absent, Absent, Absent);
      !ProfitConsistent(ApplyProductPatch(existing, EffectivePatch(body, existing)))
  {
  }

  /** The answer to what `updateProduct` returned. */
  function UpdateResponse(r: Result<Option<Product>>): (resp: Response)
    ensures r.Err? ==> resp == Response(500, Message(r.message))
    ensures r.Ok? && r.value.None? ==> resp == ProductNotFound
    ensures r.Ok? && r.value.Some? ==> resp == Response(200, OneProduct(View(r.value.value)))
  {
    match r
    case Err(m) => Response(500, Message(m))
    case Ok(None) => ProductNotFound
    case Ok(Some(p)) => Response(200, OneProduct(View(p)))
  }

  /**
   * The outcome of updating the stored product `p` (id `id`) with `patch`:
   * 500 with nothing changed when its month is locked or the patch sets a NOT
   * NULL column to null, and otherwise 200 with exactly that product patched.
   */
  ghost predicate UpdateAnswered(before: seq<Product>, records: seq<MonthRecord>, p: Product, id: int,
                                 patch: ProductPatch, resp: Response, after: seq<Product>) {
    if LockBlocks(records, p) then
      resp == Response(500, Message(LockedUpdateMessage)) && after == before
    else if ProductPatchHasNull(patch) then
      resp == Response(500, Message(NotNullMessage)) && after == before
    else
      resp == Response(200, OneProduct(View(ApplyProductPatch(p, patch)))) &&
      after == PatchProductRows(before, id, patch)
  }

  /** `updateProduct` and the answer both branches of the update route give to its outcome. */
  method UpdateAndAnswer(store: DatabaseStorage, id: int, patch: ProductPatch) returns (resp: Response)
    requires store.Valid()
    modifies store`products
    ensures store.Valid()
    ensures FindProduct(old(store.products), id).None? ==>
      resp == ProductNotFound && store.products == old(store.products)
    ensures FindProduct(old(store.products), id).Some? ==>
      UpdateAnswered(old(store.products), store.monthRecords, FindProduct(old(store.products), id).value, id,
        patch, resp, store.products)
  {
    var r := store.UpdateProduct(id, patch);
    resp := UpdateResponse(r);
  }

  method PutProduct(store: DatabaseStorage, req: Requester, id: int, body: ProductPatch) returns (resp: Response)
    requires store.Valid()
    modifies store`products
    ensures store.Valid()
    ensures CheckRole(StaffRoles, req) != Proceed ==>
      resp == Refusal(CheckRole(StaffRoles, req)) && store.products == old(store.products)
    ensures CheckRole(StaffRoles, req) == Proceed && FindProduct(old(store.products), id).None? ==>
      resp == ProductNotFound && store.products == old(store.products)
    ensures CheckRole(StaffRoles, req) == Proceed && FindProduct(old(store.products), id).Some? ==>
      var p := FindProduct(old(store.products), id).value;
      UpdateAnswered(old(store.products), store.monthRecords, p, id, EffectivePatch(body, p), resp, store.products)
  {
    var gate := CheckRole(StaffRoles, req);
    if gate != Proceed {
      return Refusal(gate);
    }
    // With a price in the body the route reads the product first and sets the
    // body's profit; either way the body then goes to `updateProduct`.
    var patch := body;
    if PriceGiven(body) {
      var existing := store.GetProduct(id);
      if existing.None? {
        return ProductNotFound;
      }
      var newCostPrice := if body.costPrice.Set? then body.costPrice.value else existing.value.costPrice;
      var newSellingPrice := if body.sellingPrice.Set? then body.sellingPrice.value else existing.value.sellingPrice;
      patch := body.(profit := Set(newSellingPrice - newCostPrice));
      assert patch == EffectivePatch(body, existing.value);
    }
    resp := UpdateAndAnswer(store, id, patch);
  }

  // ---------------------------------------------------------------------------
  // DELETE /api/products/:id.

  method DeleteProductRoute(store: DatabaseStorage, req: Requester, id: int) returns (resp: Response)
    requires store.Valid()
    modifies store`products
    ensures store.Valid()
    ensures CheckRole(StaffRoles, req) != Proceed ==>
      resp == Refusal(CheckRole(StaffRoles, req)) && store.products == old(store.products)
    ensures CheckRole(StaffRoles, req) == Proceed && FindProduct(old(store.products), id).None? ==>
      resp == ProductNotFound && store.products == old(store.products)
    ensures CheckRole(StaffRoles, req) == Proceed && FindProduct(old(store.products), id).Some? ==>
      if LockBlocks(store.monthRecords, FindProduct(old(store.products), id).value) then
        resp == Response(500, Message(LockedDeleteMessage)) && store.products == old(store.products)
      else
        resp == Response(204, NoContent) && store.products == Filter(old(store.products), ProductWithoutId(id))
  {
    var gate := CheckRole(StaffRoles, req);
    if gate != Proceed {
      return Refusal(gate);
    }
    var r := store.DeleteProduct(id);
    if r.Err? {
      resp := Response(500, Message(r.message));
    } else if !r.value {
      resp := ProductNotFound;
    } else {
      resp := Response(204, NoContent);
    }
  }

  // ---------------------------------------------------------------------------
  // PATCH /api/month-records/:id/lock and POST /api/month-records/:id/clear.

  /**
   * A truthy `isLocked` locks the record (locked, inactive, ended now); a
   * falsy one only sets `isLocked` to false and answers with the record. A
   * missing record answers 404 either way.
   */
  method LockRoute(store: DatabaseStorage, req: Requester, id: int, isLocked: bool, now: Timestamp)
    returns (resp: Response)
    requires store.Valid()
    modifies store`monthRecords
    ensures store.Valid()
    ensures CheckRole(AdminRoles, req) != Proceed ==>
      resp == Refusal(CheckRole(AdminRoles, req)) && store.monthRecords == old(store.monthRecords)
    ensures CheckRole(AdminRoles, req) == Proceed && FindRecord(old(store.monthRecords), id).None? ==>
      resp == MonthRecordNotFound && store.monthRecords == old(store.monthRecords)
    ensures CheckRole(AdminRoles, req) == Proceed && FindRecord(old(store.monthRecords), id).Some? && isLocked ==>
      resp == Response(200, Succeeded("Month record locked successfully")) &&
      store.monthRecords == LockRows(old(store.monthRecords), id, now)
    ensures CheckRole(AdminRoles, req) == Proceed && FindRecord(old(store.monthRecords), id).Some? && !isLocked ==>
      resp == Response(200, OneMonthRecord(FindRecord(old(store.monthRecords), id).value.(isLocked := false))) &&
      store.monthRecords == PatchRecordRows(old(store.monthRecords), id, UnlockPatch)
  {
    var gate := CheckRole(AdminRoles, req);
    if gate != Proceed {
      return Refusal(gate);
    }
    if isLocked {
      var success := store.LockMonthRecord(id, now);
      if !success {
        return MonthRecordNotFound;
      }
      resp := Response(200, Succeeded("Month record locked successfully"));
    } else {
      // The unlock patch sets no column to null, so the update cannot fail.
      var r := store.UpdateMonthRecord(id, UnlockPatch);
      if r.value.None? {
        return MonthRecordNotFound;
      }
      resp := Response(200, OneMonthRecord(r.value.value));
    }
  }

  /** Clears a locked month of its products; 404 when the record is missing or not locked. */
  method ClearRoute(store: DatabaseStorage, req: Requester, id: int) returns (resp: Response)
    requires store.Valid()
    modifies store`products
    ensures store.Valid()
    ensures CheckRole(AdminRoles, req) != Proceed ==>
      resp == Refusal(CheckRole(AdminRoles, req)) && store.products == old(store.products)
    ensures CheckRole(AdminRoles, req) == Proceed ==>
      var cleared := FindRecord(store.monthRecords, id).Some? && FindRecord(store.monthRecords, id).value.isLocked;
      (cleared ==> resp == Response(200, Succeeded("Month record data cleared successfully")) &&
                   store.products == Filter(old(store.products), ProductOutsideMonth(id))) &&
      (!cleared ==> resp == Response(404, Message("Month record not found or could not be cleared")) &&
                    store.products == old(store.products))
  {
    var gate := CheckRole(AdminRoles, req);
    if gate != Proceed {
      return Refusal(gate);
    }
    var success := store.ClearMonthRecordData(id);
    if !success {
      return Response(404, Message("Month record not found or could not be cleared"));
    }
    resp := Response(200, Succeeded("Month record data cleared successfully"));
  }

  // ---------------------------------------------------------------------------
  // GET /api/reports/monthly.

  function CostPrice(p: Product): real { p.costPrice }
  function SellingPrice(p: Product): real { p.sellingPrice }
  function Profit(p: Product): real { p.profit }

  /** The sum of `f` over the products, from the left (`reduce((sum, p) => sum + f(p), 0)`). */
  function SumOf(ps: seq<Product>, f: Product -> real): real
    decreases |ps|
  {
    if |ps| == 0 then 0.0 else SumOf(ps[..|ps| - 1], f) + f(ps[|ps| - 1])
  }

  const Sold: Product -> bool := ProductWithStatus("sold")
  const Available: Product -> bool := ProductWithStatus("available")

  /** The report's figures over `ps`. */
  function MonthlyReport(ps: seq<Product>): (r: Report)
    ensures r.totalProducts == |ps|
    ensures r.soldProducts == |Filter(ps, Sold)| && r.availableProducts == |Filter(ps, Available)|
    ensures r.products == ps
  {
    Report(|ps|, |Filter(ps, Sold)|, |Filter(ps, Available)|,
      SumOf(ps, CostPrice), SumOf(Filter(ps, Sold), SellingPrice), SumOf(Filter(ps, Sold), Profit), ps)
  }

  /**
   * The sold and available counts never exceed the total, and they add up to
   * it when every product's status is one of the two enumerated values.
   */
  lemma ReportCountsAddUp(ps: seq<Product>)
    ensures MonthlyReport(ps).soldProducts + MonthlyReport(ps).availableProducts <= MonthlyReport(ps).totalProducts
    ensures (forall p :: p in ps ==> p.status in ProductStatuses) ==>
      MonthlyReport(ps).soldProducts + MonthlyReport(ps).availableProducts == MonthlyReport(ps).totalProducts
  {
    FilterDisjointSize(ps, Sold, Available);
    if forall p :: p in ps ==> p.status in ProductStatuses {
      FilterComplementSize(ps, Sold, Available);
    }
  }

  /** Summing profits of products whose profit is derived gives revenue minus cost. */
  lemma {:induction false} SumOfProfits(ps: seq<Product>)
    requires forall p :: p in ps ==> ProfitConsistent(p)
    ensures SumOf(ps, Profit) == SumOf(ps, SellingPrice) - SumOf(ps, CostPrice)
    decreases |ps|
  {
    if |ps| > 0 {
      var init := ps[..|ps| - 1];
      forall p | p in init ensures ProfitConsistent(p) { assert p in ps; }
      SumOfProfits(init);
      assert ps[|ps| - 1] in ps;
    }
  }

  /**
   * When every product's profit is derived, the report's total profit is its
   * revenue minus the cost of the products sold.
   */
  lemma ReportProfitIsRevenueMinusSoldCost(ps: seq<Product>)
    requires forall p :: p in ps ==> ProfitConsistent(p)
    ensures MonthlyReport(ps).totalProfit == MonthlyReport(ps).totalRevenue - SumOf(Filter(ps, Sold), CostPrice)
  {
    SumOfProfits(Filter(ps, Sold));
  }

  /** A month or year query parameter that is present and not empty (truthy). */
  predicate Given(q: Option<string>) {
    q.Some? && q.value != ""
  }

  method MonthlyReportRoute(store: DatabaseStorage, req: Requester, month: Option<string>, year: Option<string>)
    returns (resp: Response)
    ensures CheckRole(StaffRoles, req) != Proceed ==> resp == Refusal(CheckRole(StaffRoles, req))
    ensures CheckRole(StaffRoles, req) == Proceed && !(Given(month) && Given(year)) ==>
      resp == Response(400, Message("Month and year are required"))
    ensures CheckRole(StaffRoles, req) == Proceed && Given(month) && Given(year) ==>
      resp == Response(200, MonthlyFigures(MonthlyReport(store.products)))
  {
    var gate := CheckRole(StaffRoles, req);
    if gate != Proceed {
      return Refusal(gate);
    }
    if !Given(month) || !Given(year) {
      return Response(400, Message("Month and year are required"));
    }
    // The month query is a compatibility stub that returns every product.
    var products := store.GetAllProducts();
    resp := Response(200, MonthlyFigures(MonthlyReport(products)));
  }
}
