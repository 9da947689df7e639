/** When the record of a user space and the real page table under its root agree. */
module Agreement {
  import opened KernelTypes
  import opened PageOps

  /** Every recorded mapping is open to user code and lies inside the slot. */
  predicate Proper(s: Space) {
    s.rooted && forall p: nat {:trigger s.record[p]} :: p in s.record ==> p < SLOT_PAGES && s.record[p].flags.user
  }

  predicate AgreeAt(s: Space, p: nat) {
    (p in s.record <==> BASE_PAGE + p in s.leaves) && (p in s.record ==> s.leaves[BASE_PAGE + p] == s.record[p])
  }

  /** The record is exactly the user slot of the page table, shifted. */
  predicate Agree(s: Space) {
    forall p: nat {:trigger AgreeAt(s, p)} :: p < SLOT_PAGES ==> AgreeAt(s, p)
  }

  /** What makes a map call keep an agreement: it does not get to the page table, or the page is
      for user code, lies in the slot, and there are frames for its tables. */
  predicate Keeping(s: Space, page: nat, frame: Option<nat>, flags: Flags, tables: bool) {
    frame == None || page in s.record || |s.record| >= MAX_MAPPINGS || (flags.user && page < SLOT_PAGES && tables)
  }

  /** For any page and any flags, a map call in an agreeing space keeps the agreement if and only
      if it is of that kind. */
  lemma MapKeepsAgreementIff(s: Space, page: nat, frame: Option<nat>, flags: Flags, tables: bool)
    requires Proper(s) && Agree(s)
    ensures var r := PageMap(s, UserSpace, page, frame, flags, tables).0;
      Proper(r) && Agree(r) <==> Keeping(s, page, frame, flags, tables)
  {
    var r := PageMap(s, UserSpace, page, frame, flags, tables).0;
    if page < SLOT_PAGES { assert AgreeAt(s, page); }
    if Keeping(s, page, frame, flags, tables) {
      forall p: nat {:trigger AgreeAt(r, p)} | p < SLOT_PAGES ensures AgreeAt(r, p) { assert AgreeAt(s, p); }
    } else {
      assert page in r.record && r.record[page] == Leaf(frame.value, flags);
      if page < SLOT_PAGES && flags.user { assert !AgreeAt(r, page); }
    }
  }

  /** What a map call of a user space answers and leaves, for a USER page of the slot and whatever the space:
      it succeeds exactly when a frame was got, record and page table have room for the page, the space has
      a root and the tables could be had; then the page is mapped to that frame, in the record and in the
      slot. Otherwise the code says why not, and at most the record has changed. */
  lemma UserMapExact(s: Space, page: nat, frame: Option<nat>, flags: Flags, tables: bool)
    requires page < SLOT_PAGES && flags.user
    ensures var (r, out) := PageMap(s, UserSpace, page, frame, flags, tables);
      && (out == Returned(0) <==>
            frame.Some? && page !in s.record && |s.record| < 64 && s.rooted && BASE_PAGE + page !in s.leaves && tables)
      && (out == Returned(0) ==>
            r == Space(s.record[page := Leaf(frame.value, flags)], s.leaves[BASE_PAGE + page := Leaf(frame.value, flags)], true))
      && (frame == None ==> out == Returned(10) && r == s)
      && (frame.Some? && page in s.record ==> out == Returned(1) && r == s)
      && (frame.Some? && page !in s.record && |s.record| >= 64 ==> out == Returned(3) && r == s)
      && (frame.Some? && page !in s.record && |s.record| < 64 && out != Returned(0) ==>
            && out == (if s.rooted then Returned(10) else Returned(11))
            && r == s.(record := s.record[page := Leaf(frame.value, flags)]))
  {
    assert InSlot(BASE_PAGE + page) && Canonical(BASE_PAGE + page);
  }

  /** In an agreeing space that is: a frame, a free page, room in the record, and tables. */
  lemma AgreeingMapExact(s: Space, page: nat, frame: Option<nat>, flags: Flags, tables: bool)
    requires Proper(s) && Agree(s) && page < SLOT_PAGES && flags.user
    ensures var (r, out) := PageMap(s, UserSpace, page, frame, flags, tables);
      && (out == Returned(0) <==> frame.Some? && page !in s.record && |s.record| < 64 && tables)
      && (out == Returned(0) ==>
            r == Space(s.record[page := Leaf(frame.value, flags)], s.leaves[BASE_PAGE + page := Leaf(frame.value, flags)], true))
  {
    UserMapExact(s, page, frame, flags, tables);
    assert AgreeAt(s, page);
  }

  /** When a map call panics: it has got as far as the page table, and the page is a USER page outside the slot, or a
      kernel page inside it or at no canonical address. */
  lemma MapPanicsIff(s: Space, kind: SpaceKind, page: nat, frame: Option<nat>, flags: Flags, tables: bool)
    ensures PageMap(s, kind, page, frame, flags, tables).1 == Panicked <==>
      && frame.Some? && page !in s.record && |s.record| < 64 && (kind == UserSpace ==> s.rooted)
      && if flags.user then page >= 0x800_0000
         else 0x1_0000_0000 <= page < 0x1_0800_0000 || 0x8_0000_0000 <= page < 0xF_FFF8_0000_0000 || page >= 0x10_0000_0000_0000
  {
  }

  /** When an unmap call panics: the page is recorded, and where it would be unmapped is no canonical address. */
  lemma UnmapPanicsIff(s: Space, kind: SpaceKind, page: nat)
    ensures PageUnmap(s, kind, page).1 == Panicked <==>
      && page in s.record && (kind == UserSpace ==> s.rooted)
      && var v := if kind == UserSpace then 0x1_0000_0000 + page else page;
         0x8_0000_0000 <= v < 0xF_FFF8_0000_0000 || v >= 0x10_0000_0000_0000
  {
  }

  /** Unmapping a page that was just mapped restores the space. */
  lemma MapUnmapRestores(s: Space, page: nat, frame: nat, flags: Flags)
    requires Proper(s) && Agree(s) && page < SLOT_PAGES && flags.user && page !in s.record && |s.record| < 64
    ensures var (m, out) := PageMap(s, UserSpace, page, Some(frame), flags, true);
      out == Returned(0) && PageUnmap(m, UserSpace, page) == (s, Returned(0))
  {
    AgreeingMapExact(s, page, Some(frame), flags, true);
    assert AgreeAt(s, page);
    var m := PageMap(s, UserSpace, page, Some(frame), flags, true).0;
    assert m.record - {page} == s.record;
    assert m.leaves - {BASE_PAGE + page} == s.leaves;
  }

  /** What a map call of the kernel's space answers and leaves, for a low page outside the slot. */
  lemma KernelMapExact(s: Space, page: nat, frame: Option<nat>, flags: Flags, tables: bool)
    requires page < BASE_PAGE && !flags.user
    ensures var (r, out) := PageMap(s, KernelSpace, page, frame, flags, tables);
      && (out == Returned(0) <==> frame.Some? && page !in s.record && |s.record| < 64 && page !in s.leaves && tables)
      && (out == Returned(0) ==> r == Space(s.record[page := Leaf(frame.value, flags)], s.leaves[page := Leaf(frame.value, flags)], s.rooted))
      && out.Returned?
  {
  }

  /** For a user page in the slot the call returns, and if the agreement is lost, exactly that
      page differs. */
  lemma UserMapDiffersInOnePage(s: Space, page: nat, frame: Option<nat>, flags: Flags, tables: bool)
    requires Proper(s) && Agree(s) && page < SLOT_PAGES && flags.user
    ensures var (r, out) := PageMap(s, UserSpace, page, frame, flags, tables);
      && out.Returned? && Proper(r)
      && (!Agree(r) ==> out == Returned(SYSCALL_ERR_ARCH_FAILED) && !AgreeAt(r, page)
                        && forall p: nat {:trigger AgreeAt(r, p)} :: p < SLOT_PAGES && p != page ==> AgreeAt(r, p))
      && (out == Returned(OK) ==> page !in s.record && r.record == s.record[page := Leaf(frame.value, flags)])
  {
    var (r, out) := PageMap(s, UserSpace, page, frame, flags, tables);
    assert AgreeAt(s, page);
    forall p: nat {:trigger AgreeAt(r, p)} | p < SLOT_PAGES && p != page ensures AgreeAt(r, p) { assert AgreeAt(s, p); }
  }

  /** An unmap call in an agreeing space keeps the agreement and never fails below the record. */
  lemma UnmapKeepsAgreement(s: Space, page: nat)
    requires Proper(s) && Agree(s)
    ensures var (r, out) := PageUnmap(s, UserSpace, page);
      && Proper(r) && Agree(r)
      && out == Returned(if page in s.record then OK else ERR_NOT_MAPPED)
      && r.record == s.record - {page}
  {
    var (r, out) := PageUnmap(s, UserSpace, page);
    if page < SLOT_PAGES { assert AgreeAt(s, page); }
    forall p: nat {:trigger AgreeAt(r, p)} | p < SLOT_PAGES ensures AgreeAt(r, p) { assert AgreeAt(s, p); }
  }

  /** A map call that the record accepted and the page table refused leaves a recorded page
      that is not mapped, so the cleanup of this space would panic. */
  lemma RefusedMapBreaksCleanup(s: Space, page: nat, frame: nat, flags: Flags)
    requires Proper(s) && Agree(s) && page < SLOT_PAGES && flags.user
    ensures var (r, out) := PageMap(s, UserSpace, page, Some(frame), flags, false);
      out == Returned(SYSCALL_ERR_ARCH_FAILED) ==> !CleanOk(r)
  {
    assert AgreeAt(s, page);
    var r := PageMap(s, UserSpace, page, Some(frame), flags, false).0;
    if page !in s.record && |s.record| < MAX_MAPPINGS {
      assert page in r.record && r.record[page].flags.user && !Backed(r.leaves, page);
    }
  }

  /** From an agreeing space the cleanup gets through and leaves nothing on either side. */
  lemma AgreementCleans(s: Space)
    requires Proper(s) && Agree(s)
    ensures CleanOk(s) && Cleaned(s).record == map[]
    ensures forall v: nat {:trigger v in Cleaned(s).leaves} :: InSlot(v) ==> v !in Cleaned(s).leaves
  {
    forall p: nat {:trigger s.record[p]} | p in s.record ensures Backed(s.leaves, p) { assert AgreeAt(s, p); }
    forall v: nat {:trigger v in Cleaned(s).leaves} | InSlot(v) ensures v !in Cleaned(s).leaves {
      assert AgreeAt(s, v - BASE_PAGE);
    }
  }

  // ---------------------------------------------------------------------------
  // Runs of page calls
  // ---------------------------------------------------------------------------

  datatype SpaceCall =
    | MapCall(page: nat, frame: Option<nat>, flags: Flags, tables: bool)
    | UnmapCall(page: nat)

  /** What a call leaves behind; a call that panics is the last one. */
  function CallOne(s: Space, call: SpaceCall): (r: Space) {
    match call
    case MapCall(page, frame, flags, tables) =>
      var (r, out) := PageMap(s, UserSpace, page, frame, flags, tables);
      if out.Panicked? then s else r
    case UnmapCall(page) =>
      var (r, out) := PageUnmap(s, UserSpace, page);
      if out.Panicked? then s else r
  }

  function CallAll(s: Space, calls: seq<SpaceCall>): (r: Space)
    decreases |calls|
  {
    if calls == [] then s else CallOne(CallAll(s, calls[..|calls| - 1]), calls[|calls| - 1])
  }

  /** Every leaf in the user slot is recorded as it is and open to user code, and recorded user
      pages lie in the slot; the record may hold more. */
  predicate Fit(s: Space) {
    && s.rooted
    && (forall p: nat {:trigger s.record[p]} :: p in s.record && s.record[p].flags.user ==> p < SLOT_PAGES)
    && (forall p: nat {:trigger AgreeAt(s, p)} :: p < SLOT_PAGES && BASE_PAGE + p in s.leaves ==>
          AgreeAt(s, p) && s.record[p].flags.user)
  }

  /** No page is open to user code, neither in the record nor in the page table. */
  predicate NoUserPages(s: Space) {
    && (forall p: nat {:trigger s.record[p]} :: p in s.record ==> !s.record[p].flags.user)
    && (forall p: nat :: p < SLOT_PAGES ==> !SlotLeaf(s, p))
  }

  /** Page `p` of the user slot is really mapped. */
  predicate SlotLeaf(s: Space, p: nat) {
    BASE_PAGE + p in s.leaves
  }

  lemma MapFits(s: Space, page: nat, frame: Option<nat>, flags: Flags, tables: bool)
    requires Fit(s) && PageMap(s, UserSpace, page, frame, flags, tables).1.Returned?
    ensures Fit(PageMap(s, UserSpace, page, frame, flags, tables).0)
  {
    var r := PageMap(s, UserSpace, page, frame, flags, tables).0;
    if page < SLOT_PAGES && BASE_PAGE + page in s.leaves { assert AgreeAt(s, page); }
    forall p: nat {:trigger AgreeAt(r, p)} | p < SLOT_PAGES && BASE_PAGE + p in r.leaves
      ensures AgreeAt(r, p) && r.record[p].flags.user
    {
      if BASE_PAGE + p in s.leaves { assert AgreeAt(s, p); }
    }
  }

  lemma UnmapFits(s: Space, page: nat)
    requires Fit(s) && PageUnmap(s, UserSpace, page).1.Returned?
    ensures Fit(PageUnmap(s, UserSpace, page).0)
  {
    var r := PageUnmap(s, UserSpace, page).0;
    forall p: nat {:trigger AgreeAt(r, p)} | p < SLOT_PAGES && BASE_PAGE + p in r.leaves
      ensures AgreeAt(r, p) && r.record[p].flags.user
    {
      assert BASE_PAGE + p in s.leaves;
      assert AgreeAt(s, p);
    }
  }

  /** The cleanup of a fit space leaves no user page on either side. */
  lemma CleanedFits(s: Space)
    requires Fit(s)
    ensures Fit(Cleaned(s)) && NoUserPages(Cleaned(s))
  {
    var r := Cleaned(s);
    forall p: nat | p < SLOT_PAGES ensures !SlotLeaf(r, p) {
      if BASE_PAGE + p in s.leaves { assert AgreeAt(s, p); }
    }
    assert forall p: nat {:trigger AgreeAt(r, p)} :: p < SLOT_PAGES ==> !SlotLeaf(r, p);
  }

  /** After any page calls, with any pages, flags and failures, every user page really mapped in
      the slot is recorded as it is: nothing can escape the cleanup. */
  lemma {:induction false} FitForever(calls: seq<SpaceCall>)
    ensures Fit(CallAll(Space(map[], map[], true), calls))
    decreases |calls|
  {
    if calls != [] {
      FitForever(calls[..|calls| - 1]);
      var s := CallAll(Space(map[], map[], true), calls[..|calls| - 1]);
      match calls[|calls| - 1]
      case MapCall(page, frame, flags, tables) =>
        if PageMap(s, UserSpace, page, frame, flags, tables).1.Returned? { MapFits(s, page, frame, flags, tables); }
      case UnmapCall(page) => if PageUnmap(s, UserSpace, page).1.Returned? { UnmapFits(s, page); }
    }
  }

  /** Record and page table agree after any page calls of the keeping kind. */
  lemma {:induction false} AgreementForever(calls: seq<SpaceCall>)
    requires forall k :: 0 <= k < |calls| && calls[k].MapCall? ==>
      calls[k].flags.user && calls[k].page < SLOT_PAGES && calls[k].tables
    ensures var s := CallAll(Space(map[], map[], true), calls); Proper(s) && Agree(s)
    decreases |calls|
  {
    if calls != [] {
      var init := calls[..|calls| - 1];
      AgreementForever(init);
      var s := CallAll(Space(map[], map[], true), init);
      match calls[|calls| - 1]
      case MapCall(page, frame, flags, tables) => MapKeepsAgreementIff(s, page, frame, flags, tables);
      case UnmapCall(page) => UnmapKeepsAgreement(s, page);
    }
  }

  // ---------------------------------------------------------------------------
  // Pages that are not for user code
  // ---------------------------------------------------------------------------

  /** A call that unmaps page `v` of the page table. */
  predicate Unmaps(call: SpaceCall, v: nat) {
    call.UnmapCall? && BASE_PAGE + call.page == v
  }

  /** A leaf survives every call that does not unmap this very page. */
  lemma {:induction false} LeafSurvives(s: Space, v: nat, calls: seq<SpaceCall>)
    requires v in s.leaves && forall k :: 0 <= k < |calls| ==> !Unmaps(calls[k], v)
    ensures v in CallAll(s, calls).leaves && CallAll(s, calls).leaves[v] == s.leaves[v]
    decreases |calls|
  {
    if calls != [] {
      LeafSurvives(s, v, calls[..|calls| - 1]);
      LeafKept(CallAll(s, calls[..|calls| - 1]), v, calls[|calls| - 1]);
    }
  }

  lemma LeafKept(s: Space, v: nat, call: SpaceCall)
    requires v in s.leaves && !Unmaps(call, v)
    ensures v in CallOne(s, call).leaves && CallOne(s, call).leaves[v] == s.leaves[v]
  {
    match call
    case MapCall(page, frame, flags, tables) => MapKeepsLeaf(s, v, page, frame, flags, tables);
    case UnmapCall(page) =>
  }

  lemma MapKeepsLeaf(s: Space, v: nat, page: nat, frame: Option<nat>, flags: Flags, tables: bool)
    requires v in s.leaves
    ensures var r := PageMap(s, UserSpace, page, frame, flags, tables).0; v in r.leaves && r.leaves[v] == s.leaves[v]
  {
  }

  /** In any agreeing space, a page below the user slot that is not for user code can be mapped
      when it is free; its own unmap call then fails below the record, and no sequence of calls
      at all removes its leaf. */
  lemma KernelPageDiverges(s: Space, page: nat, frame: nat, flags: Flags, calls: seq<SpaceCall>)
    requires Proper(s) && Agree(s) && page < BASE_PAGE && !flags.user
    requires page !in s.record && |s.record| < MAX_MAPPINGS && page !in s.leaves
    ensures var (m, out) := PageMap(s, UserSpace, page, Some(frame), flags, true);
      && out == Returned(OK) && !(Proper(m) && Agree(m)) && m.leaves == s.leaves[page := Leaf(frame, flags)]
      && (page < SLOT_PAGES ==> PageUnmap(m, UserSpace, page).1 == Returned(SYSCALL_ERR_ARCH_FAILED))
      && page in CallAll(m, calls).leaves && CallAll(m, calls).leaves[page] == Leaf(frame, flags)
  {
    MapKeepsAgreementIff(s, page, Some(frame), flags, true);
    var m := PageMap(s, UserSpace, page, Some(frame), flags, true).0;
    if page < SLOT_PAGES { assert AgreeAt(s, page); }
    LeafSurvives(m, page, calls);
  }
}
