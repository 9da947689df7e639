/** What mapping and unmapping a page does to a space's record and to its page table. */
module PageOps {
  import opened KernelTypes

  const MAX_MAPPINGS: nat := 64

  /** The pages of one level-4 slot, and the first page of the user slot. */
  const SLOT_PAGES: nat := 0x800_0000
  const BASE_PAGE: nat := 32 * SLOT_PAGES

  const OK: nat := 0
  const ERR_ALREADY_MAPPED: nat := 1
  const ERR_NOT_MAPPED: nat := 2
  const ERR_CAPACITY: nat := 3
  const ERR_BAD_ASPACE: nat := 11

  // ---------------------------------------------------------------------------
  // The record
  // ---------------------------------------------------------------------------

  datatype MemAction = Map(page: nat, frame: nat, flags: Flags) | Unmap(page: nat)

  datatype SpaceError = AlreadyMapped | NotMapped | CapacityExceeded

  function ErrorCode(err: SpaceError): nat {
    match err
    case AlreadyMapped => ERR_ALREADY_MAPPED
    case NotMapped => ERR_NOT_MAPPED
    case CapacityExceeded => ERR_CAPACITY
  }

  /** What an action does to the recorded mappings, and how it ends. */
  function Applied(m: map<nat, Leaf>, action: MemAction): (map<nat, Leaf>, Option<SpaceError>) {
    match action
    case Map(page, frame, flags) =>
      if page in m then (m, Some(AlreadyMapped))
      else if |m| >= MAX_MAPPINGS then (m, Some(CapacityExceeded))
      else (m[page := Leaf(frame, flags)], None)
    case Unmap(page) => if page in m then (m - {page}, None) else (m, Some(NotMapped))
  }

  /** The mappings without those open to user code. */
  function WithoutUser(m: map<nat, Leaf>): map<nat, Leaf> {
    map p | p in m && !m[p].flags.user :: m[p]
  }

  // ---------------------------------------------------------------------------
  // The page table
  // ---------------------------------------------------------------------------

  /** How a page call or a part of it ends: with a code, or in a panic. */
  datatype Outcome = Returned(code: nat) | Panicked

  predicate InSlot(v: nat) {
    BASE_PAGE <= v < BASE_PAGE + SLOT_PAGES
  }

  /** Canonical pages: the low half, and the top of the 64-bit space. */
  predicate Canonical(v: nat) {
    v < 0x8_0000_0000 || 0xF_FFF8_0000_0000 <= v < 0x10_0000_0000_0000
  }

  /** The page that apply_mem_action_with_mapper maps: pages for user code go to the user slot. */
  function MappedPage(page: nat, flags: Flags): nat {
    if flags.user then BASE_PAGE + page else page
  }

  /** enforce_user_mapping_policy, and the canonical address it is asked about. */
  predicate Permitted(page: nat, flags: Flags) {
    Canonical(MappedPage(page, flags)) && flags.user == InSlot(MappedPage(page, flags))
  }

  /** The Map half of apply_mem_action_with_mapper. `tables` says whether frames for missing
      tables could be had. */
  function MapLeaf(leaves: map<nat, Leaf>, page: nat, leaf: Leaf, tables: bool): (r: (map<nat, Leaf>, Outcome)) {
    var v := MappedPage(page, leaf.flags);
    if !Permitted(page, leaf.flags) then (leaves, Panicked)
    else if v in leaves || !tables then (leaves, Returned(SYSCALL_ERR_ARCH_FAILED))
    else (leaves[v := leaf], Returned(OK))
  }

  /** The page that the Unmap half unmaps: in a user space always one of the user slot. */
  function UnmappedPage(page: nat, kind: SpaceKind): nat {
    if kind == UserSpace then BASE_PAGE + page else page
  }

  function UnmapLeaf(leaves: map<nat, Leaf>, page: nat, kind: SpaceKind): (r: (map<nat, Leaf>, Outcome)) {
    var v := UnmappedPage(page, kind);
    if !Canonical(v) then (leaves, Panicked)
    else if v !in leaves then (leaves, Returned(SYSCALL_ERR_ARCH_FAILED))
    else (leaves - {v}, Returned(OK))
  }

  // ---------------------------------------------------------------------------
  // The page calls
  // ---------------------------------------------------------------------------

  /** syscall_page_map; `frame` is the frame got for the task, if any. */
  function PageMap(s: Space, kind: SpaceKind, page: nat, frame: Option<nat>, flags: Flags, tables: bool): (r: (Space, Outcome)) {
    match frame
    case None => (s, Returned(SYSCALL_ERR_ARCH_FAILED))
    case Some(f) =>
      var (record, err) := Applied(s.record, Map(page, f, flags));
      var s1 := s.(record := record);
      if err.Some? then (s1, Returned(ErrorCode(err.value)))
      else if kind == UserSpace && !s.rooted then (s1, Returned(ERR_BAD_ASPACE))
      else
        var (leaves, out) := MapLeaf(s.leaves, page, Leaf(f, flags), tables);
        (s1.(leaves := leaves), out)
  }

  /** Whether a map call gets as far as creating missing tables. */
  predicate NeedsTables(s: Space, kind: SpaceKind, page: nat, flags: Flags) {
    && page !in s.record && |s.record| < MAX_MAPPINGS && (kind == UserSpace ==> s.rooted)
    && Permitted(page, flags) && MappedPage(page, flags) !in s.leaves
  }

  /** syscall_page_unmap */
  function PageUnmap(s: Space, kind: SpaceKind, page: nat): (r: (Space, Outcome)) {
    var (record, err) := Applied(s.record, Unmap(page));
    var s1 := s.(record := record);
    if err.Some? then (s1, Returned(ErrorCode(err.value)))
    else if kind == UserSpace && !s.rooted then (s1, Returned(ERR_BAD_ASPACE))
    else
      var (leaves, out) := UnmapLeaf(s.leaves, page, kind);
      (s1.(leaves := leaves), out)
  }

  // ---------------------------------------------------------------------------
  // Cleanup
  // ---------------------------------------------------------------------------

  /** A recorded user page is really mapped. */
  predicate Backed(leaves: map<nat, Leaf>, p: nat) {
    Canonical(BASE_PAGE + p) && BASE_PAGE + p in leaves
  }

  /** Page `v` of the page table is recorded as open to user code. */
  predicate UserPage(record: map<nat, Leaf>, v: nat) {
    v >= BASE_PAGE && v - BASE_PAGE in record && record[v - BASE_PAGE].flags.user
  }

  /** When cleanup_user_mappings_of_address_space gets through without a panic. */
  predicate CleanOk(s: Space) {
    s.rooted && forall p :: p in s.record && s.record[p].flags.user ==> Backed(s.leaves, p)
  }

  /** What it leaves. */
  function Cleaned(s: Space): Space {
    Space(WithoutUser(s.record), map v | v in s.leaves && !UserPage(s.record, v) :: s.leaves[v], s.rooted)
  }
}
