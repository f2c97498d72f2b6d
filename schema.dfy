/**
 * The shared table definitions and validation schemas: the rows of the users,
 * month-record, product and task tables, the values a client may insert into
 * those tables and into the game-name table, the enumerations and defaults of
 * the columns, and the checks the extended validation schemas put on request
 * bodies.
 */
module Schema {
  import opened Wrappers
  import opened Rows

  /** A point in time, in milliseconds since the epoch (what a JavaScript `Date` holds). */
  type Timestamp = int

  // Enumerations of the text columns, in declaration order.
  const UserRoles: seq<string> := ["admin", "supervisor", "user", "new_user"]
  const ProductCategories: seq<string> := ["Game Account", "In-Game Items"]
  const ProductStatuses: seq<string> := ["available", "sold"]
  const TaskStatuses: seq<string> := ["started", "in_progress", "completed"]

  // Column defaults.
  const DefaultUserRole: string := "new_user"
  const DefaultProductStatus: string := "available"
  const DefaultTaskStatus: string := "started"
  const DefaultIsActive: bool := true
  const DefaultIsLocked: bool := false
  const DefaultTotalActiveTime: int := 0

  /** A row of the users table. */
  datatype User = User(
    id: int,
    username: string,
    password: string,
    role: string,
    lastActive: Option<Timestamp>,
    totalActiveTime: Option<int>,
    createdAt: Timestamp)

  /** What a client supplies to create a user. */
  datatype InsertUser = InsertUser(username: string, password: string, role: Option<string>)

  /** What a client supplies to create a game name. */
  datatype InsertGameName = InsertGameName(name: string, createdBy: int)

  /** A row of the month-records table: one accounting period. */
  datatype MonthRecord = MonthRecord(
    id: int,
    name: string,
    startDate: Timestamp,
    endDate: Option<Timestamp>,
    isActive: bool,
    isLocked: bool,
    createdAt: Timestamp)

  /** What a client supplies to create a month record; omitted flags take the column defaults. */
  datatype InsertMonthRecord = InsertMonthRecord(
    name: string,
    startDate: Timestamp,
    endDate: Option<Timestamp>,
    isActive: Option<bool>,
    isLocked: Option<bool>)

  /**
   * A row of the products table. `category` and `status` are text columns:
   * their enumerations are checked by validation, not by the table, and an
   * unvalidated update can store any text in them.
   */
  datatype Product = Product(
    id: int,
    name: string,
    gameAccount: string,
    gameName: string,
    category: string,
    dateReceived: Timestamp,
    costPrice: real,
    sellingPrice: real,
    profit: real,
    status: string,
    evidence: Option<string>,
    monthRecordId: int,
    userId: int,
    createdAt: Timestamp)

  /** What a client supplies to create a product. */
  datatype InsertProduct = InsertProduct(
    name: string,
    gameAccount: string,
    gameName: string,
    category: string,
    dateReceived: Option<Timestamp>,
    costPrice: real,
    sellingPrice: real,
    profit: real,
    status: Option<string>,
    evidence: Option<string>,
    monthRecordId: int,
    userId: int)

  /** A row of the tasks table. */
  datatype Task = Task(
    id: int,
    title: string,
    description: Option<string>,
    status: string,
    dueDate: Option<Timestamp>,
    assignedTo: Option<int>,
    createdBy: int,
    createdAt: Timestamp)

  /** What a client supplies to create a task. */
  datatype InsertTask = InsertTask(
    title: string,
    description: Option<string>,
    status: Option<string>,
    dueDate: Option<Timestamp>,
    assignedTo: Option<int>,
    createdBy: int)

  /** A product stored as the schema intends: enumerated text, non-negative prices, derived profit. */
  predicate WellFormedProduct(p: Product) {
    && p.category in ProductCategories
    && p.status in ProductStatuses
    && p.costPrice >= 0.0
    && p.sellingPrice >= 0.0
    && p.profit == p.sellingPrice - p.costPrice
  }

  // ---------------------------------------------------------------------------
  // Validation. Each validator lists every check the body fails, in the order
  // the schema declares the fields; an empty list means the body parses.

  /** The issues `gameNameValidationSchema` can report. */
  datatype GameNameIssue = GameNameTooShort {
    function Message(): string {
      "Game name must be at least 2 characters"
    }
  }

  /** The issues `productValidationSchema` can report. */
  datatype ProductIssue =
    | ProductNameTooShort
    | GameAccountMissing
    | GameNameMissing
    | CategoryInvalid
    | CostPriceNegative
    | SellingPriceNegative
    | ProductStatusInvalid
  {
    function Message(): string {
      match this
      case ProductNameTooShort => "Product name must be at least 3 characters"
      case GameAccountMissing => "Game account information is required"
      case GameNameMissing => "Game name is required"
      case CategoryInvalid => "Invalid enum value"
      case CostPriceNegative => "Cost price must be a positive number"
      case SellingPriceNegative => "Selling price must be a positive number"
      case ProductStatusInvalid => "Invalid enum value"
    }
  }

  /** The issues `taskValidationSchema` can report. */
  datatype TaskIssue = TaskTitleTooShort | TaskStatusInvalid {
    function Message(): string {
      match this
      case TaskTitleTooShort => "Task title must be at least 3 characters"
      case TaskStatusInvalid => "Invalid enum value"
    }
  }

  /** The issues `userValidationSchema` can report. */
  datatype UserIssue = UsernameTooShort | PasswordTooShort | RoleInvalid | PasswordsDoNotMatch {
    function Message(): string {
      match this
      case UsernameTooShort => "Username must be at least 3 characters"
      case PasswordTooShort => "Password must be at least 6 characters"
      case RoleInvalid => "Invalid enum value"
      case PasswordsDoNotMatch => "Passwords do not match"
    }
  }

  /** An optional enumerated field: absent, or one of `values`. */
  predicate OptionalIn(v: Option<string>, values: seq<string>) {
    v.None? || v.value in values
  }

  /** A game name is at least 2 characters long. */
  function ValidateGameName(g: InsertGameName): (issues: seq<GameNameIssue>)
    ensures issues == [] <==> |g.name| >= 2
    ensures GameNameTooShort in issues <==> |g.name| < 2
  {
    if |g.name| >= 2 then [] else [GameNameTooShort]
  }

  /** Every product issue, in the order the schema declares the fields. */
  const AllProductIssues: seq<ProductIssue> := [
    ProductNameTooShort, GameAccountMissing, GameNameMissing, CategoryInvalid,
    CostPriceNegative, SellingPriceNegative, ProductStatusInvalid]

  /** Whether product body `p` fails the check behind issue `i`. */
  predicate ProductFails(p: InsertProduct, i: ProductIssue) {
    match i
    case ProductNameTooShort => |p.name| < 3
    case GameAccountMissing => |p.gameAccount| < 1
    case GameNameMissing => |p.gameName| < 1
    case CategoryInvalid => p.category !in ProductCategories
    case CostPriceNegative => p.costPrice < 0.0
    case SellingPriceNegative => p.sellingPrice < 0.0
    case ProductStatusInvalid => !OptionalIn(p.status, ProductStatuses)
  }

  /** The checks of `productValidationSchema` as a condition on issues. */
  function ProductCheck(p: InsertProduct): ProductIssue -> bool {
    i => ProductFails(p, i)
  }

  /**
   * A product body needs a name of at least 3 characters, a non-empty game
   * account and game name, a category from the enumeration, non-negative
   * prices, and a status from the enumeration when it gives one.
   */
  function ValidateProduct(p: InsertProduct): (issues: seq<ProductIssue>)
    ensures forall i :: i in issues <==> ProductFails(p, i)
    ensures issues == [] <==> ProductValid(p)
  {
    var issues := Filter(AllProductIssues, ProductCheck(p));
    forall i ensures i in issues <==> ProductFails(p, i) { ProductIssueListed(i); }
    assert issues != [] ==> issues[0] in issues;
    InvalidProductFails(p);
    issues
  }

  /** A body that is not valid fails some check. */
  lemma InvalidProductFails(p: InsertProduct)
    ensures !ProductValid(p) ==> exists i :: ProductFails(p, i)
  {
    if !ProductValid(p) {
      var i :=
        if |p.name| < 3 then ProductNameTooShort
        else if |p.gameAccount| < 1 then GameAccountMissing
        else if |p.gameName| < 1 then GameNameMissing
        else if p.category !in ProductCategories then CategoryInvalid
        else if p.costPrice < 0.0 then CostPriceNegative
        else if p.sellingPrice < 0.0 then SellingPriceNegative
        else ProductStatusInvalid;
      assert ProductFails(p, i);
    }
  }

  /** `AllProductIssues` lists every issue. */
  lemma ProductIssueListed(i: ProductIssue)
    ensures i in AllProductIssues
  {
  }

  /** The conjunction of the product checks. */
  predicate ProductValid(p: InsertProduct) {
    && |p.name| >= 3
    && |p.gameAccount| >= 1
    && |p.gameName| >= 1
    && p.category in ProductCategories
    && p.costPrice >= 0.0
    && p.sellingPrice >= 0.0
    && OptionalIn(p.status, ProductStatuses)
  }

  /** A task body needs a title of at least 3 characters and, when given, a status from the enumeration. */
  function ValidateTask(t: InsertTask): (issues: seq<TaskIssue>)
    ensures TaskTitleTooShort in issues <==> |t.title| < 3
    ensures TaskStatusInvalid in issues <==> !OptionalIn(t.status, TaskStatuses)
    ensures issues == [] <==> |t.title| >= 3 && OptionalIn(t.status, TaskStatuses)
  {
    (if |t.title| >= 3 then [] else [TaskTitleTooShort])
    + (if OptionalIn(t.status, TaskStatuses) then [] else [TaskStatusInvalid])
  }

  /** A user registration body; `confirmPassword` is optional. */
  datatype UserForm = UserForm(
    username: string,
    password: string,
    confirmPassword: Option<string>,
    role: string)

  /**
   * A user body needs a username of at least 3 characters, a password of at
   * least 6, a role from the enumeration, and, when a non-empty confirmation is
   * given, a confirmation equal to the password (an empty one is falsy and
   * skips the comparison). The confirmation is a refinement of the whole
   * object: a role outside the enumeration aborts the object's parse, so the
   * comparison is then not made and its issue not reported; a too-short
   * username or password does not abort it.
   */
  function ValidateUser(u: UserForm): (issues: seq<UserIssue>)
    ensures UsernameTooShort in issues <==> |u.username| < 3
    ensures PasswordTooShort in issues <==> |u.password| < 6
    ensures RoleInvalid in issues <==> u.role !in UserRoles
    ensures PasswordsDoNotMatch in issues <==>
      u.role in UserRoles &&
      u.confirmPassword.Some? && u.confirmPassword.value != "" && u.confirmPassword.value != u.password
    ensures issues == [] <==> |u.username| >= 3 && |u.password| >= 6 && u.role in UserRoles && ConfirmationMatches(u)
  {
    var issues := Filter(AllUserIssues, UserCheck(u));
    forall i ensures i in issues <==> UserFails(u, i) { UserIssueListed(i); }
    assert issues != [] ==> issues[0] in issues;
    issues
  }

  /** `AllUserIssues` lists every issue. */
  lemma UserIssueListed(i: UserIssue)
    ensures i in AllUserIssues
  {
  }

  /** Every user issue, in the order the schema declares the fields. */
  const AllUserIssues: seq<UserIssue> := [UsernameTooShort, PasswordTooShort, RoleInvalid, PasswordsDoNotMatch]

  /** Whether user body `u` fails the check behind issue `i`. */
  predicate UserFails(u: UserForm, i: UserIssue) {
    match i
    case UsernameTooShort => |u.username| < 3
    case PasswordTooShort => |u.password| < 6
    case RoleInvalid => u.role !in UserRoles
    case PasswordsDoNotMatch => u.role in UserRoles && !ConfirmationMatches(u)
  }

  /** The checks of `userValidationSchema` as a condition on issues. */
  function UserCheck(u: UserForm): UserIssue -> bool {
    i => UserFails(u, i)
  }

  /** The refinement on the user schema: `confirmPassword ? password === confirmPassword : true`. */
  predicate ConfirmationMatches(u: UserForm) {
    match u.confirmPassword
    case None => true
    case Some(c) => c == "" || c == u.password
  }
}
