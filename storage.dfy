/**
 * The database storage: the users, month-records, products and tasks tables
 * and the operations the server performs on them. A month record that is
 * locked blocks the update and the deletion of its products and permits
 * clearing them all at once.
 *
 * The tables are held in insertion order; every storage method is one atomic
 * step. The pure functions in the first half of the module state what each
 * method does to the tables; the class in the second half performs it.
 */
module Storage {
  import opened Wrappers
  import opened Schema
  import opened Rows

  // Error messages of the operations that throw.
  const LockedUpdateMessage: string := "Cannot update product in a locked month"
  const LockedDeleteMessage: string := "Cannot delete product in a locked month"
  const NotNullMessage: string := "null value in column violates not-null constraint"
  const DuplicateUsernameMessage: string :=
    "duplicate key value violates unique constraint \"users_username_unique\""

  // ---------------------------------------------------------------------------
  // Patches: the `Partial<...>` bodies handed to `update ... set(...)`.

  /** A field of a patch: omitted (left as it is), explicitly null, or set to a value. */
  datatype Field<T> = Absent | Null | Set(value: T)

  /** The new value of a NOT NULL column (a null is refused before this is used). */
  function Patched<T>(f: Field<T>, current: T): T {
    if f.Set? then f.value else current
  }

  /** The new value of a nullable column. */
  function PatchedNullable<T>(f: Field<T>, current: Option<T>): Option<T> {
    match f
    case Absent => current
    case Null => None
    case Set(v) => Some(v)
  }

  /** A patch of a month record. */
  datatype MonthRecordPatch = MonthRecordPatch(
    name: Field<string>,
    startDate: Field<Timestamp>,
    endDate: Field<Timestamp>,
    isActive: Field<bool>,
    isLocked: Field<bool>,
    createdAt: Field<Timestamp>)

  /** The patch the unlock route sends: `{ isLocked: false }`. */
  const UnlockPatch: MonthRecordPatch :=
    MonthRecordPatch(Absent, Absent, Absent, Absent, Set(false), Absent)

  /** The patch sets a NOT NULL column of a month record to null. */
  predicate RecordPatchHasNull(patch: MonthRecordPatch) {
    patch.name.Null? || patch.startDate.Null? || patch.isActive.Null? ||
    patch.isLocked.Null? || patch.createdAt.Null?
  }

  /** Month record `r` with `patch` applied. */
  function ApplyRecordPatch(r: MonthRecord, patch: MonthRecordPatch): MonthRecord {
    r.(name := Patched(patch.name, r.name),
       startDate := Patched(patch.startDate, r.startDate),
       endDate := PatchedNullable(patch.endDate, r.endDate),
       isActive := Patched(patch.isActive, r.isActive),
       isLocked := Patched(patch.isLocked, r.isLocked),
       createdAt := Patched(patch.createdAt, r.createdAt))
  }

  /** A patch of a product. */
  datatype ProductPatch = ProductPatch(
    name: Field<string>,
    gameAccount: Field<string>,
    gameName: Field<string>,
    category: Field<string>,
    dateReceived: Field<Timestamp>,
    costPrice: Field<real>,
    sellingPrice: Field<real>,
    profit: Field<real>,
    status: Field<string>,
    evidence: Field<string>,
    monthRecordId: Field<int>,
    userId: Field<int>,
    createdAt: Field<Timestamp>)

  /** The patch sets a NOT NULL column of a product to null (only `evidence` is nullable). */
  predicate ProductPatchHasNull(patch: ProductPatch) {
    patch.name.Null? || patch.gameAccount.Null? || patch.gameName.Null? ||
    patch.category.Null? || patch.dateReceived.Null? || patch.costPrice.Null? ||
    patch.sellingPrice.Null? || patch.profit.Null? || patch.status.Null? ||
    patch.monthRecordId.Null? || patch.userId.Null? || patch.createdAt.Null?
  }

  /** Product `p` with `patch` applied. */
  function ApplyProductPatch(p: Product, patch: ProductPatch): Product {
    p.(name := Patched(patch.name, p.name),
       gameAccount := Patched(patch.gameAccount, p.gameAccount),
       gameName := Patched(patch.gameName, p.gameName),
       category := Patched(patch.category, p.category),
       dateReceived := Patched(patch.dateReceived, p.dateReceived),
       costPrice := Patched(patch.costPrice, p.costPrice),
       sellingPrice := Patched(patch.sellingPrice, p.sellingPrice),
       profit := Patched(patch.profit, p.profit),
       status := Patched(patch.status, p.status),
       evidence := PatchedNullable(patch.evidence, p.evidence),
       monthRecordId := Patched(patch.monthRecordId, p.monthRecordId),
       userId := Patched(patch.userId, p.userId),
       createdAt := Patched(patch.createdAt, p.createdAt))
  }

  // ---------------------------------------------------------------------------
  // Keys and row conditions (the `where` clauses).

  function UserId(u: User): int { u.id }
  function RecordId(r: MonthRecord): int { r.id }
  function ProductId(p: Product): int { p.id }
  function TaskId(t: Task): int { t.id }

  function UserWithId(id: int): User -> bool { (u: User) => u.id == id }
  function UserWithName(username: string): User -> bool { (u: User) => u.username == username }
  function RecordWithId(id: int): MonthRecord -> bool { (r: MonthRecord) => r.id == id }
  function ProductWithId(id: int): Product -> bool { (p: Product) => p.id == id }
  function TaskWithId(id: int): Task -> bool { (t: Task) => t.id == id }
  function ProductWithoutId(id: int): Product -> bool { (p: Product) => p.id != id }
  function ProductInMonth(monthRecordId: int): Product -> bool { (p: Product) => p.monthRecordId == monthRecordId }
  function ProductOutsideMonth(monthRecordId: int): Product -> bool { (p: Product) => p.monthRecordId != monthRecordId }
  function ProductInCategory(category: string): Product -> bool { (p: Product) => p.category == category }
  function ProductWithStatus(status: string): Product -> bool { (p: Product) => p.status == status }
  function RecordUnlocked(r: MonthRecord): bool { !r.isLocked }
  function RecordActive(r: MonthRecord): bool { r.isActive }

  function FindUser(us: seq<User>, id: int): Option<User> { Find(us, UserWithId(id)) }
  function FindRecord(rs: seq<MonthRecord>, id: int): Option<MonthRecord> { Find(rs, RecordWithId(id)) }
  function FindProduct(ps: seq<Product>, id: int): Option<Product> { Find(ps, ProductWithId(id)) }

  // ---------------------------------------------------------------------------
  // Rows created by the insert operations.

  /** A new user: the role supplied is ignored and every account starts as `new_user`. */
  function NewUser(ins: InsertUser, id: int, now: Timestamp): (u: User)
    ensures u.role == DefaultUserRole
    ensures u.username == ins.username && u.password == ins.password
    ensures u.lastActive == Some(now) && u.totalActiveTime == Some(0)
  {
    User(id, ins.username, ins.password, DefaultUserRole, Some(now), Some(DefaultTotalActiveTime), now)
  }

  /** A new month record: omitted flags take the column defaults (active, unlocked). */
  function NewMonthRecord(ins: InsertMonthRecord, id: int, now: Timestamp): (r: MonthRecord)
    ensures r.isActive == (ins.isActive != Some(false))
    ensures r.isLocked == (ins.isLocked == Some(true))
    ensures r.name == ins.name && r.startDate == ins.startDate && r.endDate == ins.endDate
  {
    MonthRecord(id, ins.name, ins.startDate, ins.endDate,
      ins.isActive.GetOr(DefaultIsActive), ins.isLocked.GetOr(DefaultIsLocked), now)
  }

  /**
   * A new product: a missing reception date becomes `now`, and a missing or
   * empty status (both falsy) becomes `available`.
   */
  function NewProduct(ins: InsertProduct, id: int, now: Timestamp): (p: Product)
    ensures p.dateReceived == (if ins.dateReceived.Some? then ins.dateReceived.value else now)
    ensures p.status == (if ins.status.None? || ins.status.value == "" then DefaultProductStatus else ins.status.value)
    ensures ins.status.Some? && ins.status.value in ProductStatuses ==> p.status == ins.status.value
    ensures p.status != ""
    ensures p.costPrice == ins.costPrice && p.sellingPrice == ins.sellingPrice && p.profit == ins.profit
    ensures p.monthRecordId == ins.monthRecordId && p.userId == ins.userId
  {
    Product(id, ins.name, ins.gameAccount, ins.gameName, ins.category,
      ins.dateReceived.GetOr(now), ins.costPrice, ins.sellingPrice, ins.profit,
      if ins.status.None? || ins.status.value == "" then DefaultProductStatus else ins.status.value,
      ins.evidence, ins.monthRecordId, ins.userId, now)
  }

  /** A new task: a missing or empty status becomes `started`. */
  function NewTask(ins: InsertTask, id: int, now: Timestamp): (t: Task)
    ensures t.status == (if ins.status.None? || ins.status.value == "" then DefaultTaskStatus else ins.status.value)
    ensures t.status != ""
    ensures t.title == ins.title && t.createdBy == ins.createdBy
  {
    Task(id, ins.title, ins.description,
      if ins.status.None? || ins.status.value == "" then DefaultTaskStatus else ins.status.value,
      ins.dueDate, ins.assignedTo, ins.createdBy, now)
  }

  // ---------------------------------------------------------------------------
  // User activity.

  /** Whole seconds from `last` to `now`, rounded down (`Math.floor(ms / 1000)`). */
  function ElapsedSeconds(last: Timestamp, now: Timestamp): (s: int)
    ensures 1000 * s <= now - last < 1000 * s + 1000
    ensures last <= now ==> s >= 0
  {
    // Dafny's division by a positive divisor rounds down, as Math.floor does.
    (now - last) / 1000
  }

  /**
   * The accumulated active time after a visit at `now`: a missing (or zero)
   * total counts as 0 and a missing last visit counts as `now`.
   */
  function ActiveTimeAt(u: User, now: Timestamp): (total: int)
    ensures u.lastActive.None? ==> total == u.totalActiveTime.GetOr(0)
    ensures u.lastActive.GetOr(now) <= now ==> total >= u.totalActiveTime.GetOr(0)
  {
    u.totalActiveTime.GetOr(0) + ElapsedSeconds(u.lastActive.GetOr(now), now)
  }

  /** The users table after `update users set lastActive = now, totalActiveTime = total where id = id`. */
  function RecordActivityRows(us: seq<User>, id: int, now: Timestamp, total: int): seq<User> {
    seq(|us|, i requires 0 <= i < |us| =>
      if us[i].id == id then us[i].(lastActive := Some(now), totalActiveTime := Some(total)) else us[i])
  }

  // ---------------------------------------------------------------------------
  // Month records.

  /** Record `r` closed at `now`: locked, no longer active, ended at `now`. */
  function Locked(r: MonthRecord, now: Timestamp): MonthRecord {
    r.(isLocked := true, isActive := false, endDate := Some(now))
  }

  /** The month-records table after locking the rows with id `id` at `now`. */
  function LockRows(rs: seq<MonthRecord>, id: int, now: Timestamp): seq<MonthRecord> {
    seq(|rs|, i requires 0 <= i < |rs| => if rs[i].id == id then Locked(rs[i], now) else rs[i])
  }

  /** The month-records table after patching the rows with id `id`. */
  function PatchRecordRows(rs: seq<MonthRecord>, id: int, patch: MonthRecordPatch): seq<MonthRecord> {
    seq(|rs|, i requires 0 <= i < |rs| => if rs[i].id == id then ApplyRecordPatch(rs[i], patch) else rs[i])
  }

  /**
   * Locking closes exactly the rows with id `id`: each of them is locked,
   * inactive and ended at `now`, with its other columns as before; every
   * other row is as it was.
   */
  lemma LockRowsEffect(rs: seq<MonthRecord>, id: int, now: Timestamp, i: nat)
    requires i < |rs|
    ensures |LockRows(rs, id, now)| == |rs|
    ensures rs[i].id == id ==>
      var r := LockRows(rs, id, now)[i];
      r.isLocked && !r.isActive && r.endDate == Some(now) &&
      r.(isLocked := rs[i].isLocked, isActive := rs[i].isActive, endDate := rs[i].endDate) == rs[i]
    ensures rs[i].id != id ==> LockRows(rs, id, now)[i] == rs[i]
  {
  }

  /** Locking a record that is not there changes nothing. */
  lemma LockMissingRecord(rs: seq<MonthRecord>, id: int, now: Timestamp)
    requires FindRecord(rs, id).None?
    ensures LockRows(rs, id, now) == rs
  {
    forall i | 0 <= i < |rs| ensures LockRows(rs, id, now)[i] == rs[i] {
      assert rs[i] in rs;
    }
  }

  /**
   * Locking twice leaves the table as one lock at the second time would: the
   * flags are those of a single lock, and the end date is re-stamped.
   */
  lemma LockTwice(rs: seq<MonthRecord>, id: int, t1: Timestamp, t2: Timestamp)
    ensures LockRows(LockRows(rs, id, t1), id, t2) == LockRows(rs, id, t2)
  {
  }

  /** Locking keeps every record's id, so the record found by id is the locked one. */
  lemma FindAfterLock(rs: seq<MonthRecord>, id: int, now: Timestamp, other: int)
    ensures FindRecord(LockRows(rs, id, now), other) ==
      match FindRecord(rs, other)
      case None => None
      case Some(r) => Some(if r.id == id then Locked(r, now) else r)
  {
    FirstIndexAgrees(rs, LockRows(rs, id, now), RecordWithId(other));
  }

  /** Patching keeps every record's id, so the record found by id is the patched one. */
  lemma FindAfterRecordPatch(rs: seq<MonthRecord>, id: int, patch: MonthRecordPatch)
    ensures FindRecord(PatchRecordRows(rs, id, patch), id) ==
      match FindRecord(rs, id)
      case None => None
      case Some(r) => Some(ApplyRecordPatch(r, patch))
  {
    FirstIndexAgrees(rs, PatchRecordRows(rs, id, patch), RecordWithId(id));
  }

  /**
   * Unlocking only clears the lock flag: a record locked at `now` and then
   * unlocked stays inactive and keeps `now` as its end date.
   */
  lemma UnlockAfterLock(r: MonthRecord, now: Timestamp)
    ensures ApplyRecordPatch(Locked(r, now), UnlockPatch) == r.(isLocked := false, isActive := false, endDate := Some(now))
    ensures ApplyRecordPatch(r, UnlockPatch) == r.(isLocked := false)
  {
  }

  // ---------------------------------------------------------------------------
  // Products.

  /**
   * The lock check of `updateProduct` and `deleteProduct`: the product's own
   * month record, when its id is non-zero (truthy) and the record exists, is locked.
   */
  predicate LockBlocks(rs: seq<MonthRecord>, p: Product) {
    p.monthRecordId != 0 &&
    match FindRecord(rs, p.monthRecordId)
    case Some(m) => m.isLocked
    case None => false
  }

  /** The products table after patching the rows with id `id`. */
  function PatchProductRows(ps: seq<Product>, id: int, patch: ProductPatch): seq<Product> {
    seq(|ps|, i requires 0 <= i < |ps| => if ps[i].id == id then ApplyProductPatch(ps[i], patch) else ps[i])
  }

  /** Patching rewrites exactly the rows with id `id`. */
  lemma PatchProductRowsEffect(ps: seq<Product>, id: int, patch: ProductPatch, i: nat)
    requires i < |ps|
    ensures |PatchProductRows(ps, id, patch)| == |ps|
    ensures PatchProductRows(ps, id, patch)[i] == if ps[i].id == id then ApplyProductPatch(ps[i], patch) else ps[i]
  {
  }

  /** Patching keeps every product's id, so the product found by id is the patched one. */
  lemma FindAfterProductPatch(ps: seq<Product>, id: int, patch: ProductPatch, other: int)
    ensures FindProduct(PatchProductRows(ps, id, patch), other) ==
      match FindProduct(ps, other)
      case None => None
      case Some(p) => Some(if p.id == id then ApplyProductPatch(p, patch) else p)
  {
    FirstIndexAgrees(ps, PatchProductRows(ps, id, patch), ProductWithId(other));
  }

  /**
   * Clearing month `id` removes exactly its products and keeps every other
   * product, in order.
   */
  lemma ClearEffect(ps: seq<Product>, id: int)
    ensures forall p :: p in Filter(ps, ProductOutsideMonth(id)) <==> p in ps && p.monthRecordId != id
    ensures Filter(ps, ProductInMonth(id)) == [] ==> Filter(ps, ProductOutsideMonth(id)) == ps
    ensures |Filter(ps, ProductOutsideMonth(id))| + |Filter(ps, ProductInMonth(id))| == |ps|
  {
    FilterComplementSize(ps, ProductOutsideMonth(id), ProductInMonth(id));
    if Filter(ps, ProductInMonth(id)) == [] {
      assert forall p :: p in ps ==> ProductOutsideMonth(id)(p);
      FilterKeepsAll(ps, ProductOutsideMonth(id));
    }
  }

  /** After clearing, the month has no products left. */
  lemma ClearEmptiesMonth(ps: seq<Product>, id: int)
    ensures Filter(Filter(ps, ProductOutsideMonth(id)), ProductInMonth(id)) == []
  {
    FilterKeepsNone(Filter(ps, ProductOutsideMonth(id)), ProductInMonth(id));
  }

  /** Deleting product `id` removes exactly the rows with that id. */
  lemma DeleteEffect(ps: seq<Product>, id: int)
    ensures forall p :: p in Filter(ps, ProductWithoutId(id)) <==> p in ps && p.id != id
    ensures FindProduct(Filter(ps, ProductWithoutId(id)), id).None?
  {
  }

  // ---------------------------------------------------------------------------
  // The storage object.

  class DatabaseStorage {
    var users: seq<User>
    var monthRecords: seq<MonthRecord>
    var products: seq<Product>
    var tasks: seq<Task>
    // The next value of each table's serial id column.
    var nextUserId: int
    var nextMonthRecordId: int
    var nextProductId: int
    var nextTaskId: int

    /** Serial ids: they start at 1, increase along each table, and stay below the next value. */
    ghost predicate Valid()
      reads this
    {
      && 1 <= nextUserId && 1 <= nextMonthRecordId && 1 <= nextProductId && 1 <= nextTaskId
      && Increasing(users, UserId) && KeysWithin(users, UserId, 1, nextUserId)
      && Increasing(monthRecords, RecordId) && KeysWithin(monthRecords, RecordId, 1, nextMonthRecordId)
      && Increasing(products, ProductId) && KeysWithin(products, ProductId, 1, nextProductId)
      && Increasing(tasks, TaskId) && KeysWithin(tasks, TaskId, 1, nextTaskId)
    }

    /** An empty database. */
    constructor ()
      ensures Valid()
      ensures users == [] && monthRecords == [] && products == [] && tasks == []
      ensures nextUserId == 1 && nextMonthRecordId == 1 && nextProductId == 1 && nextTaskId == 1
    {
      users, monthRecords, products, tasks := [], [], [], [];
      nextUserId, nextMonthRecordId, nextProductId, nextTaskId := 1, 1, 1, 1;
    }

    // ================= User operations =================

    /**
     * Inserts a user with the role forced to `new_user`; the unique username
     * constraint refuses a name already taken. The serial value is drawn
     * before the constraint is checked and is not given back, so a refused
     * insert still advances it.
     */
    method CreateUser(ins: InsertUser, now: Timestamp) returns (r: Result<User>)
      requires Valid()
      modifies this`users, this`nextUserId
      ensures Valid()
      ensures nextUserId == old(nextUserId) + 1
      ensures Find(old(users), UserWithName(ins.username)).Some? ==>
        r == Err(DuplicateUsernameMessage) && users == old(users)
      ensures Find(old(users), UserWithName(ins.username)).None? ==>
        r == Ok(NewUser(ins, old(nextUserId), now)) && users == old(users) + [r.value]
      ensures r.Ok? ==> r.value.role == DefaultUserRole && FindUser(users, r.value.id) == Some(r.value)
    {
      if Find(users, UserWithName(ins.username)).Some? {
        nextUserId := nextUserId + 1;
        return Err(DuplicateUsernameMessage);
      }
      var u := NewUser(ins, nextUserId, now);
      AppendKeepsOrder(users, u, UserId, 1, nextUserId);
      users := users + [u];
      nextUserId := nextUserId + 1;
      IncreasingFindsRow(users, UserId, |users| - 1, UserWithId(u.id));
      r := Ok(u);
    }

    /**
     * Records a visit at `now`: the user's active time grows by the whole
     * seconds since the last visit and the last visit becomes `now`.
     * Returns false when there is no such user.
     */
    method UpdateUserActivity(id: int, now: Timestamp) returns (ok: bool)
      requires Valid()
      modifies this`users
      ensures Valid()
      ensures ok <==> FindUser(old(users), id).Some?
      ensures ok ==> users == RecordActivityRows(old(users), id, now, ActiveTimeAt(FindUser(old(users), id).value, now))
      ensures !ok ==> users == old(users)
    {
      var found := FindUser(users, id);
      if found.None? {
        return false;
      }
      var total := ActiveTimeAt(found.value, now);
      var updated := RecordActivityRows(users, id, now, total);
      SameKeysKeepOrder(users, updated, UserId, 1, nextUserId);
      users := updated;
      ok := true;
    }

    // ================= Month record operations =================

    /** The month record with id `id`, if any. */
    method GetMonthRecord(id: int) returns (r: Option<MonthRecord>)
      ensures r == FindRecord(monthRecords, id)
      ensures r.None? <==> forall m :: m in monthRecords ==> m.id != id
      ensures r.Some? ==> r.value in monthRecords && r.value.id == id
    {
      r := FindRecord(monthRecords, id);
    }

    /** The first month record (in table order) that is active, if any. */
    method GetCurrentMonthRecord() returns (r: Option<MonthRecord>)
      ensures r.None? <==> forall i :: 0 <= i < |monthRecords| ==> !monthRecords[i].isActive
      ensures r.Some? ==> r.value.isActive
      ensures r.Some? ==>
        exists k :: (0 <= k < |monthRecords| && monthRecords[k] == r.value &&
                     forall j :: 0 <= j < k ==> !monthRecords[j].isActive)
    {
      var k := FirstIndex(monthRecords, RecordActive);
      r := if k < |monthRecords| then Some(monthRecords[k]) else None;
    }

    /** Inserts a month record with the next id; omitted flags take the column defaults. */
    method CreateMonthRecord(ins: InsertMonthRecord, now: Timestamp) returns (r: MonthRecord)
      requires Valid()
      modifies this`monthRecords, this`nextMonthRecordId
      ensures Valid()
      ensures r == NewMonthRecord(ins, old(nextMonthRecordId), now)
      ensures monthRecords == old(monthRecords) + [r] && nextMonthRecordId == old(nextMonthRecordId) + 1
      ensures FindRecord(monthRecords, r.id) == Some(r)
    {
      r := NewMonthRecord(ins, nextMonthRecordId, now);
      AppendKeepsOrder(monthRecords, r, RecordId, 1, nextMonthRecordId);
      monthRecords := monthRecords + [r];
      nextMonthRecordId := nextMonthRecordId + 1;
      IncreasingFindsRow(monthRecords, RecordId, |monthRecords| - 1, RecordWithId(r.id));
    }

    /**
     * Applies `patch` to the month record `id` and returns the updated record;
     * nothing, when there is none; the database's error when the patch sets a
     * NOT NULL column to null. The record's own lock does not restrict this.
     */
    method UpdateMonthRecord(id: int, patch: MonthRecordPatch) returns (r: Result<Option<MonthRecord>>)
      requires Valid()
      modifies this`monthRecords
      ensures Valid()
      ensures FindRecord(old(monthRecords), id).None? ==> r == Ok(None) && monthRecords == old(monthRecords)
      ensures FindRecord(old(monthRecords), id).Some? && RecordPatchHasNull(patch) ==>
        r == Err(NotNullMessage) && monthRecords == old(monthRecords)
      ensures FindRecord(old(monthRecords), id).Some? && !RecordPatchHasNull(patch) ==>
        r == Ok(Some(ApplyRecordPatch(FindRecord(old(monthRecords), id).value, patch))) &&
        monthRecords == PatchRecordRows(old(monthRecords), id, patch)
    {
      var found := FindRecord(monthRecords, id);
      if found.None? {
        return Ok(None);
      }
      if RecordPatchHasNull(patch) {
        return Err(NotNullMessage);
      }
      var updated := PatchRecordRows(monthRecords, id, patch);
      SameKeysKeepOrder(monthRecords, updated, RecordId, 1, nextMonthRecordId);
      monthRecords := updated;
      r := Ok(Some(ApplyRecordPatch(found.value, patch)));
    }

    /**
     * Locks the month record `id` at `now` (locked, inactive, ended now) and
     * says whether a row was updated.
     */
    method LockMonthRecord(id: int, now: Timestamp) returns (ok: bool)
      requires Valid()
      modifies this`monthRecords
      ensures Valid()
      ensures ok <==> FindRecord(old(monthRecords), id).Some?
      ensures monthRecords == LockRows(old(monthRecords), id, now)
      ensures !ok ==> monthRecords == old(monthRecords)
    {
      ok := FindRecord(monthRecords, id).Some?;
      if !ok {
        LockMissingRecord(monthRecords, id, now);
      }
      var updated := LockRows(monthRecords, id, now);
      SameKeysKeepOrder(monthRecords, updated, RecordId, 1, nextMonthRecordId);
      monthRecords := updated;
    }

    /**
     * Deletes every product of month `id`, only when that record exists and is
     * locked; says whether it did. The record itself stays.
     */
    method ClearMonthRecordData(id: int) returns (ok: bool)
      requires Valid()
      modifies this`products
      ensures Valid()
      ensures ok <==> FindRecord(monthRecords, id).Some? && FindRecord(monthRecords, id).value.isLocked
      ensures ok ==> products == Filter(old(products), ProductOutsideMonth(id))
      ensures !ok ==> products == old(products)
      ensures forall p :: p in products <==> p in old(products) && !(ok && p.monthRecordId == id)
    {
      var found := FindRecord(monthRecords, id);
      if found.None? || !found.value.isLocked {
        return false;
      }
      FilterKeepsOrder(products, ProductOutsideMonth(id), ProductId, 1, nextProductId);
      products := Filter(products, ProductOutsideMonth(id));
      ok := true;
    }

    /** Every month record, in table order. */
    method GetAllMonthRecords() returns (rs: seq<MonthRecord>)
      ensures rs == monthRecords
    {
      rs := monthRecords;
    }

    /** The month records that are not locked, in table order, whatever their active flag. */
    method GetActiveMonthRecords() returns (rs: seq<MonthRecord>)
      ensures rs == Filter(monthRecords, RecordUnlocked)
      ensures forall r :: r in rs <==> r in monthRecords && !r.isLocked
    {
      rs := Filter(monthRecords, RecordUnlocked);
    }

    // ================= Product operations =================

    /** The product with id `id`, if any. */
    method GetProduct(id: int) returns (r: Option<Product>)
      ensures r == FindProduct(products, id)
      ensures r.None? <==> forall p :: p in products ==> p.id != id
      ensures r.Some? ==> r.value in products && r.value.id == id
    {
      r := FindProduct(products, id);
    }

    /**
     * Inserts a product with the next id, filling in the reception date and
     * the status. The owning month's lock is not consulted.
     */
    method CreateProduct(ins: InsertProduct, now: Timestamp) returns (p: Product)
      requires Valid()
      modifies this`products, this`nextProductId
      ensures Valid()
      ensures p == NewProduct(ins, old(nextProductId), now)
      ensures products == old(products) + [p] && nextProductId == old(nextProductId) + 1
      ensures FindProduct(products, p.id) == Some(p)
    {
      p := NewProduct(ins, nextProductId, now);
      AppendKeepsOrder(products, p, ProductId, 1, nextProductId);
      products := products + [p];
      nextProductId := nextProductId + 1;
      IncreasingFindsRow(products, ProductId, |products| - 1, ProductWithId(p.id));
    }

    /**
     * Applies `patch` to product `id` and returns the updated product. Nothing
     * when there is no such product; an error, with nothing changed, when the
     * product's current month record is locked; the database's error when the
     * patch sets a NOT NULL column to null.
     */
    method UpdateProduct(id: int, patch: ProductPatch) returns (r: Result<Option<Product>>)
      requires Valid()
      modifies this`products
      ensures Valid()
      ensures FindProduct(old(products), id).None? ==> r == Ok(None) && products == old(products)
      ensures FindProduct(old(products), id).Some? && LockBlocks(monthRecords, FindProduct(old(products), id).value) ==>
        r == Err(LockedUpdateMessage) && products == old(products)
      ensures FindProduct(old(products), id).Some? && !LockBlocks(monthRecords, FindProduct(old(products), id).value)
              && ProductPatchHasNull(patch) ==>
        r == Err(NotNullMessage) && products == old(products)
      ensures FindProduct(old(products), id).Some? && !LockBlocks(monthRecords, FindProduct(old(products), id).value)
              && !ProductPatchHasNull(patch) ==>
        r == Ok(Some(ApplyProductPatch(FindProduct(old(products), id).value, patch))) &&
        products == PatchProductRows(old(products), id, patch)
    {
      var found := FindProduct(products, id);
      if found.None? {
        return Ok(None);
      }
      if LockBlocks(monthRecords, found.value) {
        return Err(LockedUpdateMessage);
      }
      if ProductPatchHasNull(patch) {
        return Err(NotNullMessage);
      }
      var updated := PatchProductRows(products, id, patch);
      SameKeysKeepOrder(products, updated, ProductId, 1, nextProductId);
      products := updated;
      r := Ok(Some(ApplyProductPatch(found.value, patch)));
    }

    /**
     * Deletes product `id` and says whether it existed; an error, with nothing
     * removed, when the product's month record is locked.
     */
    method DeleteProduct(id: int) returns (r: Result<bool>)
      requires Valid()
      modifies this`products
      ensures Valid()
      ensures FindProduct(old(products), id).None? ==> r == Ok(false) && products == old(products)
      ensures FindProduct(old(products), id).Some? && LockBlocks(monthRecords, FindProduct(old(products), id).value) ==>
        r == Err(LockedDeleteMessage) && products == old(products)
      ensures FindProduct(old(products), id).Some? && !LockBlocks(monthRecords, FindProduct(old(products), id).value) ==>
        r == Ok(true) && products == Filter(old(products), ProductWithoutId(id))
    {
      var found := FindProduct(products, id);
      if found.None? {
        return Ok(false);
      }
      if LockBlocks(monthRecords, found.value) {
        return Err(LockedDeleteMessage);
      }
      FilterKeepsOrder(products, ProductWithoutId(id), ProductId, 1, nextProductId);
      products := Filter(products, ProductWithoutId(id));
      r := Ok(true);
    }

    /** Every product, in table order. */
    method GetAllProducts() returns (ps: seq<Product>)
      ensures ps == products
    {
      ps := products;
    }

    /** The products of month record `monthRecordId`, in table order. */
    method GetProductsByMonthRecord(monthRecordId: int) returns (ps: seq<Product>)
      ensures ps == Filter(products, ProductInMonth(monthRecordId))
      ensures forall p :: p in ps <==> p in products && p.monthRecordId == monthRecordId
    {
      ps := Filter(products, ProductInMonth(monthRecordId));
    }

    /** The products of a category, in table order. */
    method GetProductsByCategory(category: string) returns (ps: seq<Product>)
      ensures ps == Filter(products, ProductInCategory(category))
      ensures forall p :: p in ps <==> p in products && p.category == category
    {
      ps := Filter(products, ProductInCategory(category));
    }

    /** The products with a status, in table order. */
    method GetProductsByStatus(status: string) returns (ps: seq<Product>)
      ensures ps == Filter(products, ProductWithStatus(status))
      ensures forall p :: p in ps <==> p in products && p.status == status
    {
      ps := Filter(products, ProductWithStatus(status));
    }

    // ================= Task operations =================

    /** Inserts a task with the next id; a missing or empty status becomes `started`. */
    method CreateTask(ins: InsertTask, now: Timestamp) returns (t: Task)
      requires Valid()
      modifies this`tasks, this`nextTaskId
      ensures Valid()
      ensures t == NewTask(ins, old(nextTaskId), now)
      ensures tasks == old(tasks) + [t] && nextTaskId == old(nextTaskId) + 1
      ensures Find(tasks, TaskWithId(t.id)) == Some(t)
    {
      t := NewTask(ins, nextTaskId, now);
      AppendKeepsOrder(tasks, t, TaskId, 1, nextTaskId);
      tasks := tasks + [t];
      nextTaskId := nextTaskId + 1;
      IncreasingFindsRow(tasks, TaskId, |tasks| - 1, TaskWithId(t.id));
    }
  }

  /**
   * Opens a month in an empty database and records in it a product bought
   * for 10 and sold for 15, with the profit the routes derive.
   */
  method OpenMonthWithProduct(now: Timestamp) returns (store: DatabaseStorage, month: MonthRecord, product: Product)
    ensures fresh(store) && store.Valid()
    ensures store.monthRecords == [month] && store.products == [product]
    ensures month.id == 1 && month.isActive && !month.isLocked
    ensures product.id == 1 && product.monthRecordId == month.id
    ensures product.profit == 5.0 && product.status == DefaultProductStatus
  {
    store := new DatabaseStorage();
    month := store.CreateMonthRecord(InsertMonthRecord("Month 1", now, None, None, None), now);
    product := store.CreateProduct(InsertProduct("Account A", "acc-1", "Game", "Game Account", None,
      10.0, 15.0, 15.0 - 10.0, None, None, month.id, 1), now);
  }

  /**
   * Once the month of that product is locked, editing the product is refused,
   * clearing the month removes it, and it is gone.
   */
  method LockedMonthScenario(now: Timestamp) {
    var store, month, product := OpenMonthWithProduct(now);

    var locked := store.LockMonthRecord(month.id, now);
    assert locked;
    assert FindRecord(store.monthRecords, month.id) == Some(Locked(month, now)) by {
      LockRowsEffect([month], month.id, now, 0);
      assert store.monthRecords == [Locked(month, now)];
      assert RecordWithId(month.id)(store.monthRecords[0]);
    }

    assert FindProduct(store.products, product.id) == Some(product) by {
      assert ProductWithId(product.id)(store.products[0]);
    }
    var edit := ProductPatch(Set("Account B"), Absent, Absent, Absent, Absent, Absent, Absent,
      Absent, Absent, Absent, Absent, Absent, Absent);
    var refused := store.UpdateProduct(product.id, edit);
    assert refused == Err(LockedUpdateMessage);

    var cleared := store.ClearMonthRecordData(month.id);
    assert cleared;
    var gone := store.GetProduct(product.id);
    assert gone == None;
  }
}
