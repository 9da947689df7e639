/** The logical record of a space's mappings: 64 slots, searched and overwritten in place. */
module AddressSpaces {
  import opened KernelTypes
  import opened PageOps

  datatype Mapping = Mapping(page: nat, frame: nat, flags: Flags)

  // ---------------------------------------------------------------------------
  // The contents of a record
  // ---------------------------------------------------------------------------

  predicate Holds(slots: seq<Option<Mapping>>, page: nat) {
    exists k: nat :: k < |slots| && slots[k].Some? && slots[k].value.page == page
  }

  /** No page is recorded twice. */
  predicate Unique(slots: seq<Option<Mapping>>) {
    forall i: nat, j: nat {:trigger slots[i], slots[j]} ::
      i < j < |slots| && slots[i].Some? && slots[j].Some? ==> slots[i].value.page != slots[j].value.page
  }

  /** The recorded mappings as a map from pages. */
  function Contents(slots: seq<Option<Mapping>>): map<nat, Leaf> {
    if slots == [] then map[]
    else
      var rest := Contents(slots[..|slots| - 1]);
      match slots[|slots| - 1]
      case None => rest
      case Some(m) => rest[m.page := Leaf(m.frame, m.flags)]
  }

  lemma {:induction false} ContentsAt(slots: seq<Option<Mapping>>, k: nat)
    requires Unique(slots) && k < |slots| && slots[k].Some?
    ensures slots[k].value.page in Contents(slots)
    ensures Contents(slots)[slots[k].value.page] == Leaf(slots[k].value.frame, slots[k].value.flags)
  {
    var init := slots[..|slots| - 1];
    if k < |slots| - 1 {
      assert init[k] == slots[k];
      assert Unique(init);
      ContentsAt(init, k);
    }
  }

  lemma {:induction false} ContentsFrom(slots: seq<Option<Mapping>>, page: nat)
    requires page in Contents(slots)
    ensures Holds(slots, page)
  {
    var last := slots[|slots| - 1];
    if last.Some? && last.value.page == page {
      assert slots[|slots| - 1].Some?;
    } else {
      var init := slots[..|slots| - 1];
      ContentsFrom(init, page);
      var k: nat :| k < |init| && init[k].Some? && init[k].value.page == page;
      assert slots[k] == init[k];
    }
  }

  /** Two records with the same recorded mappings have the same contents. */
  lemma SameContents(slots: seq<Option<Mapping>>, m: map<nat, Leaf>)
    requires Unique(slots)
    requires forall k: nat :: k < |slots| && slots[k].Some? ==>
      slots[k].value.page in m && m[slots[k].value.page] == Leaf(slots[k].value.frame, slots[k].value.flags)
    requires forall page: nat :: page in m ==> Holds(slots, page)
    ensures Contents(slots) == m
  {
    forall page: nat ensures page in Contents(slots) <==> page in m {
      if page in Contents(slots) { ContentsFrom(slots, page); }
      if page in m {
        var k: nat :| k < |slots| && slots[k].Some? && slots[k].value.page == page;
        ContentsAt(slots, k);
      }
    }
    forall page: nat | page in m ensures Contents(slots)[page] == m[page] {
      var k: nat :| k < |slots| && slots[k].Some? && slots[k].value.page == page;
      ContentsAt(slots, k);
    }
  }

  lemma PutContents(slots: seq<Option<Mapping>>, k: nat, page: nat, frame: nat, flags: Flags)
    requires Unique(slots) && k < |slots| && slots[k] == None && !Holds(slots, page)
    ensures var r := slots[k := Some(Mapping(page, frame, flags))];
      Unique(r) && Contents(r) == Contents(slots)[page := Leaf(frame, flags)]
  {
    var r := slots[k := Some(Mapping(page, frame, flags))];
    var m := Contents(slots)[page := Leaf(frame, flags)];
    forall j: nat | j < |r| && r[j].Some?
      ensures r[j].value.page in m && m[r[j].value.page] == Leaf(r[j].value.frame, r[j].value.flags)
    {
      if j != k { ContentsAt(slots, j); }
    }
    forall p: nat | p in m ensures Holds(r, p) {
      if p == page {
        assert r[k].Some?;
      } else {
        ContentsFrom(slots, p);
        var j: nat :| j < |slots| && slots[j].Some? && slots[j].value.page == p;
        assert r[j] == slots[j];
      }
    }
    SameContents(r, m);
  }

  lemma DropContents(slots: seq<Option<Mapping>>, k: nat)
    requires Unique(slots) && k < |slots| && slots[k].Some?
    ensures Unique(slots[k := None]) && Contents(slots[k := None]) == Contents(slots) - {slots[k].value.page}
  {
    var r := slots[k := None];
    var page := slots[k].value.page;
    var m := Contents(slots) - {page};
    forall j: nat | j < |r| && r[j].Some?
      ensures r[j].value.page in m && m[r[j].value.page] == Leaf(r[j].value.frame, r[j].value.flags)
    {
      ContentsAt(slots, j);
      assert slots[j].value.page != page;
    }
    forall p: nat | p in m ensures Holds(r, p) {
      ContentsFrom(slots, p);
      var j: nat :| j < |slots| && slots[j].Some? && slots[j].value.page == p;
      assert r[j] == slots[j];
    }
    SameContents(r, m);
  }

  lemma {:induction false} CountContents(slots: seq<Option<Mapping>>)
    requires Unique(slots)
    ensures |Contents(slots)| == Used(slots) <= |slots|
    ensures Used(slots) == |slots| <==> forall k: nat :: k < |slots| ==> slots[k].Some?
  {
    if slots != [] {
      var init := slots[..|slots| - 1];
      assert forall k: nat :: k < |init| ==> init[k] == slots[k];
      CountContents(init);
      var last := slots[|slots| - 1];
      if last.Some? && last.value.page in Contents(init) {
        ContentsFrom(init, last.value.page);
        assert false;
      }
    }
  }

  /** How many slots are used. */
  function Used(slots: seq<Option<Mapping>>): nat {
    if slots == [] then 0
    else Used(slots[..|slots| - 1]) + (if slots[|slots| - 1].Some? then 1 else 0)
  }

  function Cleared(slots: seq<Option<Mapping>>, k: nat): (r: seq<Option<Mapping>>)
    requires k <= |slots|
    ensures |r| == |slots|
    ensures forall i: nat {:trigger r[i]} :: i < |r| ==>
      r[i] == if i < k && slots[i].Some? && slots[i].value.flags.user then None else slots[i]
  {
    seq(|slots|, i requires 0 <= i < |slots| =>
      if i < k && slots[i].Some? && slots[i].value.flags.user then None else slots[i])
  }

  lemma ClearedContents(slots: seq<Option<Mapping>>)
    requires Unique(slots)
    ensures Unique(Cleared(slots, |slots|)) && Contents(Cleared(slots, |slots|)) == WithoutUser(Contents(slots))
  {
    var r := Cleared(slots, |slots|);
    var m := WithoutUser(Contents(slots));
    forall j: nat | j < |r| && r[j].Some?
      ensures r[j].value.page in m && m[r[j].value.page] == Leaf(r[j].value.frame, r[j].value.flags)
    {
      ContentsAt(slots, j);
    }
    forall p: nat | p in m ensures Holds(r, p) {
      ContentsFrom(slots, p);
      var j: nat :| j < |slots| && slots[j].Some? && slots[j].value.page == p;
      ContentsAt(slots, j);
      assert r[j] == slots[j];
    }
    SameContents(r, m);
  }

  // ---------------------------------------------------------------------------
  // The record
  // ---------------------------------------------------------------------------

  class AddressSpace {
    const mappings: array<Option<Mapping>>

    ghost predicate Valid()
      reads this, mappings
    {
      mappings.Length == MAX_MAPPINGS && Unique(mappings[..])
    }

    ghost function Value(): map<nat, Leaf>
      reads this, mappings
    {
      Contents(mappings[..])
    }

    constructor ()
      ensures Valid() && Value() == map[] && fresh(mappings)
    {
      mappings := new Option<Mapping>[MAX_MAPPINGS](_ => None);
      new;
      SameContents(mappings[..], map[]);
    }

    method FindPage(page: nat) returns (k: nat)
      requires Valid()
      ensures k <= MAX_MAPPINGS
      ensures k < MAX_MAPPINGS ==> mappings[k].Some? && mappings[k].value.page == page && page in Value()
      ensures k == MAX_MAPPINGS ==> !Holds(mappings[..], page) && page !in Value()
    {
      k := 0;
      while k < MAX_MAPPINGS
        invariant k <= MAX_MAPPINGS
        invariant forall j: nat :: j < k ==> !(mappings[j].Some? && mappings[j].value.page == page)
      {
        if mappings[k].Some? && mappings[k].value.page == page {
          ContentsAt(mappings[..], k);
          return;
        }
        k := k + 1;
      }
      if page in Value() { ContentsFrom(mappings[..], page); }
    }

    method FindFree() returns (k: nat)
      requires Valid()
      ensures k <= MAX_MAPPINGS && (k < MAX_MAPPINGS ==> mappings[k] == None)
      ensures k == MAX_MAPPINGS <==> |Value()| >= MAX_MAPPINGS
    {
      CountContents(mappings[..]);
      k := 0;
      while k < MAX_MAPPINGS
        invariant k <= MAX_MAPPINGS && forall j: nat :: j < k ==> mappings[j].Some?
      {
        if mappings[k] == None { return; }
        k := k + 1;
      }
    }

    /** AddressSpace::apply */
    method Apply(action: MemAction) returns (err: Option<SpaceError>)
      requires Valid()
      modifies mappings
      ensures Valid() && (Value(), err) == Applied(old(Value()), action)
    {
      match action
      case Map(page, frame, flags) =>
        var k := FindPage(page);
        if k < MAX_MAPPINGS { return Some(AlreadyMapped); }
        var free := FindFree();
        if free == MAX_MAPPINGS { return Some(CapacityExceeded); }
        PutContents(mappings[..], free, page, frame, flags);
        mappings[free] := Some(Mapping(page, frame, flags));
        assert mappings[..] == old(mappings[..])[free := Some(Mapping(page, frame, flags))];
        return None;
      case Unmap(page) =>
        var k := FindPage(page);
        if k == MAX_MAPPINGS { return Some(NotMapped); }
        DropContents(mappings[..], k);
        mappings[k] := None;
        assert mappings[..] == old(mappings[..])[k := None];
        return None;
    }

    /** mapping_count */
    method Count() returns (n: nat)
      requires Valid()
      ensures n == |Value()| <= MAX_MAPPINGS
    {
      n := 0;
      for k := 0 to MAX_MAPPINGS
        invariant n == Used(mappings[..k])
      {
        assert mappings[..k + 1][..k] == mappings[..k];
        if mappings[k].Some? { n := n + 1; }
      }
      assert mappings[..MAX_MAPPINGS] == mappings[..];
      CountContents(mappings[..]);
    }

    /** clear_user_mappings */
    method ClearUser()
      requires Valid()
      modifies mappings
      ensures Valid() && Value() == WithoutUser(old(Value()))
    {
      ghost var slots := mappings[..];
      for k := 0 to MAX_MAPPINGS
        invariant mappings[..] == Cleared(slots, k)
      {
        if mappings[k].Some? && mappings[k].value.flags.user { mappings[k] := None; }
      }
      ClearedContents(slots);
    }

    /** The pages open to user code, as kill_task collects them: for_each_mapping into a buffer
        of 64 pages. */
    method UserPages() returns (pages: seq<nat>, truncated: bool)
      requires Valid()
      ensures !truncated && |pages| <= MAX_MAPPINGS
      ensures forall p: nat :: p in pages <==> p in Value() && Value()[p].flags.user
      ensures forall i: nat, j: nat :: i < j < |pages| ==> pages[i] != pages[j]
    {
      pages, truncated := [], false;
      for k := 0 to MAX_MAPPINGS
        invariant |pages| <= k && !truncated
        invariant forall i: nat :: i < |pages| ==> ListedBefore(mappings[..], k, pages[i])
        invariant forall j: nat :: j < k && mappings[j].Some? && mappings[j].value.flags.user ==> mappings[j].value.page in pages
        invariant forall i: nat, j: nat :: i < j < |pages| ==> pages[i] != pages[j]
      {
        if mappings[k].Some? && mappings[k].value.flags.user {
          if |pages| < MAX_MAPPINGS {
            assert Listed(mappings[..], k, mappings[k].value.page);
            pages := pages + [mappings[k].value.page];
          } else {
            truncated := true;
          }
        }
      }
      forall p: nat ensures p in pages <==> p in Value() && Value()[p].flags.user {
        if p in pages {
          var i: nat :| i < |pages| && pages[i] == p;
          assert ListedBefore(mappings[..], MAX_MAPPINGS, pages[i]);
          var j: nat :| j < MAX_MAPPINGS && Listed(mappings[..], j, p);
          ContentsAt(mappings[..], j);
        }
        if p in Value() && Value()[p].flags.user {
          ContentsFrom(mappings[..], p);
          var j: nat :| j < MAX_MAPPINGS && mappings[j].Some? && mappings[j].value.page == p;
          ContentsAt(mappings[..], j);
        }
      }
    }
  }

  predicate ListedBefore(slots: seq<Option<Mapping>>, k: nat, page: nat) {
    exists j: nat :: j < k && Listed(slots, j, page)
  }

  predicate Listed(slots: seq<Option<Mapping>>, j: nat, page: nat) {
    j < |slots| && slots[j].Some? && slots[j].value.flags.user && slots[j].value.page == page
  }
}
