/** A user space as the kernel keeps it: the record in place, and the page table under its root. */
module UserSpaces {
  import opened KernelTypes
  import opened PageOps
  import opened AddressSpaces

  // ---------------------------------------------------------------------------
  // Cleanup
  // ---------------------------------------------------------------------------

  /** Unmapping a list of pages, stopping at the first failure. */
  function UnmapAll(leaves: map<nat, Leaf>, pages: seq<nat>): (r: (map<nat, Leaf>, bool)) {
    if pages == [] then (leaves, true)
    else
      var (l, ok) := UnmapAll(leaves, pages[..|pages| - 1]);
      if !ok then (l, false)
      else
        var (l', out) := UnmapLeaf(l, pages[|pages| - 1], UserSpace);
        (l', out == Returned(OK))
  }

  predicate Repeats(pages: seq<nat>) {
    exists i: nat, j: nat :: i < j < |pages| && pages[i] == pages[j]
  }

  predicate ListedPage(pages: seq<nat>, v: nat) {
    v >= BASE_PAGE && v - BASE_PAGE in pages
  }

  ghost predicate UnmapExact(leaves: map<nat, Leaf>, pages: seq<nat>) {
    var (l, ok) := UnmapAll(leaves, pages);
    && (ok <==> forall k: nat {:trigger pages[k]} :: k < |pages| ==> Backed(leaves, pages[k]))
    && (ok ==> forall v: nat {:trigger v in l} :: v in l <==> v in leaves && !ListedPage(pages, v))
    && (ok ==> forall v: nat {:trigger l[v]} :: v in l ==> l[v] == leaves[v])
  }

  /** Unmapping succeeds throughout exactly when every page is really mapped, and then removes
      exactly these pages. */
  lemma {:induction false} UnmapAllExact(leaves: map<nat, Leaf>, pages: seq<nat>)
    requires !Repeats(pages)
    ensures UnmapExact(leaves, pages)
  {
    if pages != [] {
      var init := pages[..|pages| - 1];
      var last := pages[|pages| - 1];
      assert forall k: nat {:trigger init[k]} :: k < |init| ==> init[k] == pages[k];
      assert !Repeats(init);
      assert last !in init;
      UnmapAllExact(leaves, init);
      LastUnmapped(leaves, init, last);
      assert pages == init + [last];
    }
  }

  lemma LastUnmapped(leaves: map<nat, Leaf>, init: seq<nat>, last: nat)
    requires last !in init && UnmapExact(leaves, init)
    ensures UnmapExact(leaves, init + [last])
  {
    var pages := init + [last];
    assert pages[..|pages| - 1] == init;
    var (l, ok) := UnmapAll(leaves, init);
    if ok {
      assert Backed(l, last) <==> Backed(leaves, last) by { assert BASE_PAGE + last in l <==> BASE_PAGE + last in leaves; }
    }
    assert (forall k: nat {:trigger pages[k]} :: k < |pages| ==> Backed(leaves, pages[k])) <==>
      (forall k: nat {:trigger init[k]} :: k < |init| ==> Backed(leaves, init[k])) && Backed(leaves, last) by {
      assert pages[|init|] == last && forall k: nat {:trigger init[k]} :: k < |init| ==> init[k] == pages[k];
    }
  }

  class PagedSpace {
    const kind: SpaceKind
    const record: AddressSpace
    var leaves: map<nat, Leaf>
    var rooted: bool

    ghost predicate Valid()
      reads this, record, record.mappings
    {
      record.Valid()
    }

    ghost function View(): Space
      reads this, record, record.mappings
    {
      Space(record.Value(), leaves, rooted)
    }

    constructor (kind: SpaceKind, rooted: bool)
      ensures Valid() && View() == Space(map[], map[], rooted) && this.kind == kind
      ensures fresh(record) && fresh(record.mappings)
    {
      this.kind := kind;
      record := new AddressSpace();
      leaves := map[];
      this.rooted := rooted;
    }

    /** syscall_page_map */
    method MapPage(page: nat, frame: Option<nat>, flags: Flags, tables: bool) returns (out: Outcome)
      requires Valid()
      modifies this, record.mappings
      ensures Valid() && (View(), out) == PageMap(old(View()), kind, page, frame, flags, tables)
    {
      match frame
      case None => return Returned(SYSCALL_ERR_ARCH_FAILED);
      case Some(f) =>
        var err := record.Apply(Map(page, f, flags));
        if err.Some? { return Returned(ErrorCode(err.value)); }
        if kind == UserSpace && !rooted { return Returned(ERR_BAD_ASPACE); }
        var (l, o) := MapLeaf(leaves, page, Leaf(f, flags), tables);
        leaves, out := l, o;
    }

    /** syscall_page_unmap */
    method UnmapPage(page: nat) returns (out: Outcome)
      requires Valid()
      modifies this, record.mappings
      ensures Valid() && (View(), out) == PageUnmap(old(View()), kind, page)
    {
      var err := record.Apply(Unmap(page));
      if err.Some? { return Returned(ErrorCode(err.value)); }
      if kind == UserSpace && !rooted { return Returned(ERR_BAD_ASPACE); }
      var (l, o) := UnmapLeaf(leaves, page, kind);
      leaves, out := l, o;
    }

    /** cleanup_user_mappings_of_address_space. For a user space it panics exactly when the space
        has no root or a recorded user page is not really mapped; otherwise the record loses its
        user pages and the page table exactly the corresponding leaves. Its list of 64 pages never
        overflows. */
    method Cleanup() returns (ok: bool)
      requires Valid()
      modifies this, record.mappings
      ensures Valid()
      ensures ok <==> kind != UserSpace || CleanOk(old(View()))
      ensures ok ==> View() == if kind == UserSpace then Cleaned(old(View())) else old(View())
    {
      if kind != UserSpace { return true; }
      if !rooted { return false; }
      var pages, truncated := record.UserPages();
      ghost var before := record.Value();
      record.ClearUser();
      UnmapAllExact(leaves, pages);
      ok := UnmapPages(pages);
      if ok {
        CleanedLeaves(old(View()), leaves, pages);
      } else {
        ghost var j: nat :| j < |pages| && !Backed(old(leaves), pages[j]);
        assert pages[j] in pages && before[pages[j]].flags.user;
      }
    }

    /** The unmapping loop: it stops at the first page that is not mapped. */
    method UnmapPages(pages: seq<nat>) returns (ok: bool)
      modifies this
      ensures rooted == old(rooted) && ok == UnmapAll(old(leaves), pages).1 && (ok ==> leaves == UnmapAll(old(leaves), pages).0)
    {
      for k := 0 to |pages|
        invariant rooted == old(rooted) && (leaves, true) == UnmapAll(old(leaves), pages[..k])
      {
        assert pages[..k + 1][..k] == pages[..k];
        var (l, out) := UnmapLeaf(leaves, pages[k], UserSpace);
        if out != Returned(OK) {
          FailsEarly(old(leaves), pages, k + 1);
          return false;
        }
        leaves := l;
      }
      assert pages[..|pages|] == pages;
      ok := true;
    }
  }

  lemma {:induction false} FailsEarly(leaves: map<nat, Leaf>, pages: seq<nat>, k: nat)
    requires k <= |pages| && !UnmapAll(leaves, pages[..k]).1
    ensures !UnmapAll(leaves, pages).1
    decreases |pages|
  {
    if k < |pages| {
      var init := pages[..|pages| - 1];
      assert init[..k] == pages[..k];
      FailsEarly(leaves, init, k);
    } else {
      assert pages[..k] == pages;
    }
  }

  lemma CleanedLeaves(s: Space, leaves: map<nat, Leaf>, pages: seq<nat>)
    requires forall p: nat :: p in pages <==> p in s.record && s.record[p].flags.user
    requires UnmapExact(s.leaves, pages) && UnmapAll(s.leaves, pages) == (leaves, true)
    ensures leaves == Cleaned(s).leaves
  {
    forall v: nat {:trigger v in leaves} ensures v in leaves <==> v in Cleaned(s).leaves {
      assert ListedPage(pages, v) <==> UserPage(s.record, v);
    }
  }
}
