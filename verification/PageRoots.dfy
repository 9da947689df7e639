/** Level-4 tables: the kernel's high alias, the roots of user spaces, and what they translate. */
module PageRoots {
  import opened KernelTypes
  import opened VirtLayout

  const ENTRIES: nat := 512
  const USER_INDEX: nat := 32
  const ALIAS_INDEX: nat := 508
  const ALIAS_COUNT: nat := 4
  const PHYSMAP_COUNT: nat := 4
  const HALF: nat := 256

  /** A used level-4 entry: the table below it, and whether user code may pass it. */
  datatype Entry = Entry(table: nat, present: bool, user: bool)

  type Root = seq<Option<Entry>>

  /** The walk below a level-4 entry, from a table and an offset in the slot. */
  type Walk = (nat, bv64) -> Option<nat>

  function IndexOf(addr: bv64): (i: nat)
    ensures i < ENTRIES
  {
    Pml4Index(addr) as nat
  }

  /** The physical address that `addr` translates to. */
  function Translate(root: Root, walk: Walk, addr: bv64): Option<nat>
    requires |root| == ENTRIES
  {
    match root[IndexOf(addr)]
    case None => None
    case Some(e) => if e.present then walk(e.table, addr & SLOT_MASK) else None
  }

  lemma IndexShift(i: bv64)
    requires i < 4
    ensures (ALIAS_BASE + i) as nat == ALIAS_INDEX + i as nat && i as nat < ALIAS_COUNT
  {
  }

  lemma AliasIndex(addr: bv64)
    requires addr < ALIAS_LIMIT
    ensures IndexOf(addr) < ALIAS_COUNT && IndexOf(HighAlias(addr)) == ALIAS_INDEX + IndexOf(addr)
  {
    AliasPlace(addr);
    LimitIndex(addr);
    IndexShift(Pml4Index(addr));
  }

  // ---------------------------------------------------------------------------
  // The kernel's high alias
  // ---------------------------------------------------------------------------

  predicate IsUser(e: Option<Entry>) {
    e.Some? && e.value.user
  }

  /** The root after the alias has been installed. */
  function Aliased(root: Root): (r: Root)
    requires |root| == ENTRIES
    ensures |r| == ENTRIES
    ensures forall i: nat {:trigger r[i]} :: i < ENTRIES ==>
      r[i] == if ALIAS_INDEX <= i && root[i - ALIAS_INDEX].Some? then root[i - ALIAS_INDEX] else root[i]
  {
    seq(ENTRIES, i requires 0 <= i < ENTRIES =>
      if ALIAS_INDEX <= i && root[i - ALIAS_INDEX].Some? then root[i - ALIAS_INDEX] else root[i])
  }

  /** install_kernel_high_alias_from_current. It stops, in a panic, exactly when one of the
      source entries is open to user code. */
  method InstallAlias(pml4: array<Option<Entry>>) returns (ok: bool)
    requires pml4.Length == ENTRIES
    modifies pml4
    ensures ok <==> forall i: nat :: i < ALIAS_COUNT ==> !IsUser(old(pml4[i]))
    ensures ok ==> pml4[..] == Aliased(old(pml4[..]))
  {
    ghost var root := pml4[..];
    for src := 0 to ALIAS_COUNT
      invariant forall i: nat :: i < src ==> !IsUser(root[i])
      invariant forall i: nat {:trigger pml4[i]} :: i < ENTRIES ==>
        pml4[i] == if ALIAS_INDEX <= i < ALIAS_INDEX + src && root[i - ALIAS_INDEX].Some? then root[i - ALIAS_INDEX] else root[i]
    {
      if pml4[src].Some? {
        if pml4[src].value.user { return false; }
        pml4[ALIAS_INDEX + src] := pml4[src];
      }
    }
    ok := true;
  }

  // ---------------------------------------------------------------------------
  // Roots of user spaces
  // ---------------------------------------------------------------------------

  /** The entries that a user root shares with the kernel. */
  predicate Shared(i: nat, physmap: nat) {
    (physmap <= i < physmap + PHYSMAP_COUNT && i < HALF) || HALF <= i
  }

  function UserRoot(root: Root, physmap: nat): (r: Root)
    requires |root| == ENTRIES
    ensures |r| == ENTRIES
    ensures forall i: nat {:trigger r[i]} :: i < ENTRIES ==> r[i] == if Shared(i, physmap) then root[i] else None
  {
    seq(ENTRIES, i requires 0 <= i < ENTRIES => if Shared(i, physmap) then root[i] else None)
  }

  /** assert_no_physmap_user_slot_collision */
  predicate Collides(physmap: nat) {
    physmap == USER_INDEX || (physmap < HALF && physmap <= USER_INDEX < physmap + PHYSMAP_COUNT)
  }

  /** One copy loop of init_user_pml4_from_current: it stops at an entry open to user code. */
  method CopyEntries(cur: array<Option<Entry>>, user: array<Option<Entry>>, lo: nat, hi: nat) returns (ok: bool)
    requires cur.Length == ENTRIES && user.Length == ENTRIES && cur != user && lo <= hi <= ENTRIES
    modifies user
    ensures ok <==> forall i: nat :: lo <= i < hi ==> !IsUser(cur[i])
    ensures ok ==> forall i: nat {:trigger user[i]} :: i < ENTRIES ==>
      user[i] == if lo <= i < hi && cur[i].Some? then cur[i] else old(user[i])
  {
    for i := lo to hi
      invariant forall j: nat :: lo <= j < i ==> !IsUser(cur[j])
      invariant forall j: nat {:trigger user[j]} :: j < ENTRIES ==>
        user[j] == if lo <= j < i && cur[j].Some? then cur[j] else old(user[j])
    {
      if cur[i].Some? {
        if cur[i].value.user { return false; }
        user[i] := cur[i];
      }
    }
    ok := true;
  }

  /** init_user_pml4_from_current. It stops, in a panic, exactly when the physmap lies in the
      high half, collides with the user slot or is missing, or when a shared entry is open to
      user code. */
  method InitUserRoot(cur: array<Option<Entry>>, user: array<Option<Entry>>, physmap: nat) returns (ok: bool)
    requires cur.Length == ENTRIES && user.Length == ENTRIES && cur != user && physmap < ENTRIES
    modifies user
    ensures ok <==> physmap < HALF && !Collides(physmap) && cur[physmap].Some? && cur[physmap].value.present
                    && forall i: nat :: i < ENTRIES && Shared(i, physmap) ==> !IsUser(cur[i])
    ensures ok ==> user[..] == UserRoot(cur[..], physmap)
  {
    if Collides(physmap) { return false; }
    for i := 0 to ENTRIES
      invariant forall j: nat :: j < i ==> user[j] == None
    {
      user[i] := None;
    }
    var end := if physmap + PHYSMAP_COUNT < HALF then physmap + PHYSMAP_COUNT else HALF;
    if physmap < end {
      ok := CopyEntries(cur, user, physmap, end);
      if !ok { return; }
    }
    if user[physmap] == None || !user[physmap].value.present { return false; }
    ok := CopyEntries(cur, user, HALF, ENTRIES);
    if !ok { return; }
    ok := CopyEntries(cur, user, ALIAS_INDEX, ALIAS_INDEX + ALIAS_COUNT);
    if !ok { return; }
    user[USER_INDEX] := None;
  }

  /** What the alias and the user roots translate. `cur` is the root before the alias was
      installed, `walk` the tables below, which all roots share. */
  lemma AliasTranslates(cur: Root, walk: Walk, physmap: nat, addr: bv64)
    requires |cur| == ENTRIES && addr < ALIAS_LIMIT && cur[IndexOf(addr)].Some?
    ensures Translate(Aliased(cur), walk, HighAlias(addr)) == Translate(cur, walk, addr)
    ensures Translate(UserRoot(Aliased(cur), physmap), walk, HighAlias(addr)) == Translate(cur, walk, addr)
  {
    AliasIndex(addr);
    AliasPlace(addr);
  }

  /** A user root agrees with its source on the physmap window and the high half, and maps
      nothing else; in particular its user slot is empty. */
  lemma UserRootExact(cur: Root, walk: Walk, physmap: nat, addr: bv64)
    requires |cur| == ENTRIES
    ensures Translate(UserRoot(cur, physmap), walk, addr) ==
      if Shared(IndexOf(addr), physmap) then Translate(cur, walk, addr) else None
    ensures !Collides(physmap) && physmap < HALF ==> UserRoot(cur, physmap)[USER_INDEX] == None
  {
  }

  // ---------------------------------------------------------------------------
  // Page calls in a user root
  // ---------------------------------------------------------------------------

  /** USER_SPACE_BASE, and the bytes one entry covers. */
  const USER_BASE: bv64 := 0x0000_1000_0000_0000
  const SLOT: bv64 := 0x0000_0080_0000_0000

  /** is_user_space_addr */
  predicate InUserSlot(addr: bv64) {
    USER_BASE <= addr < USER_BASE + SLOT
  }

  /** What apply_mem_action_with_mapper does in a user root, for the USER page at an offset. A map
      may have to create the table below the level-4 entry. */
  datatype RootOp = MapUser(offset: bv64, table: nat) | UnmapUser(offset: bv64)

  /** The root after an operation. enforce_user_mapping_policy panics for a map outside the slot; a
      map inside creates the entry on the way if it is unused, and opens it to user code. An unmap
      changes no level-4 entry. */
  function RootAfterOp(root: Root, op: RootOp): (r: Option<Root>)
    requires |root| == ENTRIES
    ensures r.Some? ==> |r.value| == ENTRIES
  {
    match op
    case UnmapUser(_) => Some(root)
    case MapUser(offset, table) =>
      var addr := USER_BASE + offset;
      if !InUserSlot(addr) then None
      else
        var i := IndexOf(addr);
        match root[i]
        case None => Some(root[i := Some(Entry(table, true, true))])
        case Some(e) => Some(root[i := Some(e.(user := true))])
  }

  /** The root after all of `ops`, unless one of them panics. */
  function RootAfter(root: Root, ops: seq<RootOp>): (r: Option<Root>)
    requires |root| == ENTRIES
    ensures r.Some? ==> |r.value| == ENTRIES
    decreases |ops|
  {
    if ops == [] then Some(root)
    else
      match RootAfter(root, ops[..|ops| - 1])
      case None => None
      case Some(mid) => RootAfterOp(mid, ops[|ops| - 1])
  }

  predicate Inside(op: RootOp) {
    op.MapUser? ==> op.offset < SLOT
  }

  lemma SlotBits(offset: bv64)
    ensures USER_BASE == SlotBase(32) && (InUserSlot(USER_BASE + offset) <==> offset < SLOT)
    ensures offset < SLOT ==> Pml4Index(USER_BASE + offset) == 32
  {
  }

  lemma UserOpStaysInSlot(root: Root, op: RootOp, i: nat)
    requires |root| == ENTRIES && i < ENTRIES && i != USER_INDEX
    ensures RootAfterOp(root, op).Some? <==> Inside(op)
    ensures Inside(op) ==> RootAfterOp(root, op).value[i] == root[i]
  {
    SlotBits(op.offset);
  }

  /** Any sequence of maps and unmaps of USER pages in a user root gets through exactly when every
      mapped page lies in the slot, and then changes no entry but that of the user slot. */
  lemma {:induction false} UserOpsStayInSlot(root: Root, ops: seq<RootOp>, i: nat)
    requires |root| == ENTRIES && i < ENTRIES && i != USER_INDEX
    ensures RootAfter(root, ops).Some? <==> forall k :: 0 <= k < |ops| ==> Inside(ops[k])
    ensures RootAfter(root, ops).Some? ==> RootAfter(root, ops).value[i] == root[i]
    decreases |ops|
  {
    if ops != [] {
      var init := ops[..|ops| - 1];
      UserOpsStayInSlot(root, init, i);
      if RootAfter(root, init).Some? { UserOpStaysInSlot(RootAfter(root, init).value, ops[|ops| - 1], i); }
      assert ops == init + [ops[|ops| - 1]];
    }
  }

  /** So every address outside the slot translates as before, whatever becomes of the tables below
      the user slot. */
  lemma UserOpsTranslate(root: Root, ops: seq<RootOp>, walk: Walk, walk': Walk, addr: bv64)
    requires |root| == ENTRIES && IndexOf(addr) != USER_INDEX && RootAfter(root, ops).Some?
    requires root[IndexOf(addr)].Some? ==>
      walk'(root[IndexOf(addr)].value.table, addr & SLOT_MASK) == walk(root[IndexOf(addr)].value.table, addr & SLOT_MASK)
    ensures Translate(RootAfter(root, ops).value, walk', addr) == Translate(root, walk, addr)
  {
    UserOpsStayInSlot(root, ops, IndexOf(addr));
  }
}
