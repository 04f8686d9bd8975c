/** Sv39 page tables in physical memory and the page allocator: kernel/vm.c and kernel/kalloc.c.  A page-table page is
    512 entries, any other allocated page 4096 bytes.  The ghosts say where each page-table page sits in which tree and
    which user mapping owns each data page. */
module PageTable {
  import opened Blocks
  import opened Sv39

  /** A physical page number; 0 is the null pointer. */
  type Page = nat

  /** A page-table page: its tree, its level, and the page-number bits above the ones it indexes. */
  datatype Key = Key(root: Page, level: nat, prefix: nat)

  type Tables = map<Page, seq<Pte>>
  type Index = map<Key, Page>

  datatype State = State(
    free: seq<Page>,               // kmem.freelist
    pt: Tables,                    // page-table pages
    data: map<Page, seq<byte>>,    // the other allocated pages
    all: set<Page>,                // the pages freerange handed to the allocator
    node: map<Page, Key>, at: Index,
    user: map<Page, (Page, nat)>,  // the tree and page number whose mapping owns a data page
    foreign: set<(Page, nat)>)     // mappings of pages they do not own (trampoline, trapframe, devices)

  /** PA2PTE(p) | perm | PTE_V */
  function NewPte(p: Page, perm: Perm): (e: Pte) { Pte(p, perm.(v := true)) }

  function Zeros(): (t: seq<Pte>)
    ensures |t| == 512 && forall x :: 0 <= x < 512 ==> t[x] == NOPTE
  { seq(512, _ => NOPTE) }

  function Fill(x: byte): (f: seq<byte>)
    ensures |f| == PGSIZE && forall i :: 0 <= i < PGSIZE ==> f[i] == x
  { seq<byte>(PGSIZE, _ => x) }

  function Entry(pt: Tables, q: Page, x: nat): (e: Pte) {
    if q in pt && x < |pt[q]| then pt[q][x] else NOPTE
  }

  // ---------- The invariant ----------

  /** Free pages, page-table pages and data pages partition the allocator's pages. */
  ghost predicate Partition(free: seq<Page>, pt: Tables, data: map<Page, seq<byte>>, all: set<Page>) {
    && (forall i, j :: 0 <= i < j < |free| ==> free[i] != free[j])
    && (forall p <- free :: p in all && p !in pt && p !in data)
    && (forall p <- pt :: p in all && p !in data && |pt[p]| == 512)
    && (forall p <- data :: p in all && |data[p]| == PGSIZE)
    && (forall p <- all :: p != 0 && (p in free || p in pt || p in data))
  }

  ghost function Child(k: Key, x: nat): (c: Key) {
    Key(k.root, if k.level > 0 then k.level - 1 else 0, k.prefix * 512 + x)
  }

  /** An upper-level entry is valid exactly when the table below it exists, and then points to it. */
  ghost predicate EntryOk(pt: Tables, node: map<Page, Key>, at: Index, q: Page, x: nat) {
    q in node && x < 512 && node[q].level > 0 ==>
      var c, e := Child(node[q], x), Entry(pt, q, x);
      (e.perm.v <==> c in at) && (c in at ==> e.page == at[c] && !e.perm.Rwx())
  }

  /** node and at are inverse, every table's parent exists, and a level-2 table is a root. */
  ghost predicate Indexed(pt: Tables, node: map<Page, Key>, at: Index) {
    && (forall q :: q in node <==> q in pt)
    && (forall q <- node :: node[q].level <= 2 && node[q] in at && at[node[q]] == q)
    && (forall k <- at :: at[k] in node && node[at[k]] == k)
    && (forall q <- node :: node[q].level == 2 ==> node[q] == Key(q, 2, 0))
    && (forall k <- at :: k.level < 2 ==> Key(k.root, k.level + 1, k.prefix / 512) in at)
  }

  ghost predicate Tree(pt: Tables, node: map<Page, Key>, at: Index) {
    Indexed(pt, node, at) && forall q: Page, x: nat :: EntryOk(pt, node, at, q, x)
  }

  /** The page-table entry for page number v in tree r; NOPTE if there is no table for it. */
  ghost function Leaf(pt: Tables, at: Index, r: Page, v: nat): (e: Pte) {
    var k := Key(r, 0, v / 512);
    if k in at then Entry(pt, at[k], v % 512) else NOPTE
  }

  ghost predicate LeafOk(pt: Tables, at: Index, user: map<Page, (Page, nat)>, foreign: set<(Page, nat)>,
                         r: Page, v: nat)
  {
    var e := Leaf(pt, at, r, v);
    if !e.perm.v then e == NOPTE else e.perm.Rwx() && ((r, v) in foreign || (e.page in user && user[e.page] == (r, v)))
  }

  ghost predicate Owned(pt: Tables, at: Index, user: map<Page, (Page, nat)>, foreign: set<(Page, nat)>) {
    && (forall r: Page, v: nat :: LeafOk(pt, at, user, foreign, r, v))
    && (forall p <- user :: user[p] !in foreign
          && Leaf(pt, at, user[p].0, user[p].1).perm.v && Leaf(pt, at, user[p].0, user[p].1).page == p)
    && (forall f <- foreign :: Leaf(pt, at, f.0, f.1).perm.v)
  }

  ghost predicate Inv(s: State) {
    && Partition(s.free, s.pt, s.data, s.all) && Tree(s.pt, s.node, s.at) && Owned(s.pt, s.at, s.user, s.foreign)
    && forall p <- s.user :: p in s.data
  }

  /** r is a new, empty tree; nothing else has changed. */
  ghost predicate Created(s: State, t: State, r: Page) {
    && s.free != [] && r == s.free[0] && t.free == s.free[1..] && t.data == s.data && t.all == s.all
    && t.user == s.user && t.foreign == s.foreign && IsRoot(t, r)
    && t.node == s.node[r := Key(r, 2, 0)] && t.at == s.at[Key(r, 2, 0) := r] && t.pt == s.pt[r := Zeros()]
    && (forall v: nat :: Lookup(t, r, v) == NOPTE && (r, v) !in t.foreign) && (forall p <- t.user :: t.user[p].0 != r)
    && (forall r': Page, v: nat :: Lookup(t, r', v) == Lookup(s, r', v))
  }

  /** The flat map a tree stands for. */
  ghost function Lookup(s: State, r: Page, v: nat): (e: Pte) { Leaf(s.pt, s.at, r, v) }

  // ---------- kalloc and kfree ----------

  ghost function Taken(s: State): (t: State)
    requires s.free != []
  { s.(free := s.free[1..], data := s.data[s.free[0] := Fill(5)]) }

  lemma TakenKeeps(s: State)
    requires Inv(s) && s.free != []
    ensures Inv(Taken(s)) && s.free[0] in s.all && s.free[0] !in s.user && s.free[0] !in s.pt && s.free[0] !in s.data
  {
    hide Tree, Owned;
    assert s.free == [s.free[0]] + s.free[1..];
  }

  ghost function Given(s: State, p: Page): (t: State) {
    s.(free := [p] + s.free, data := s.data - {p})
  }

  lemma GivenKeeps(s: State, p: Page)
    requires Inv(s) && p in s.data && p !in s.user
    ensures Inv(Given(s, p))
  { hide Tree, Owned; }

  // ---------- Growing a tree ----------

  /** *pte = PA2PTE(p) | PTE_V for a zeroed page p, where entry x of table q was invalid. */
  ghost function Attached(s: State, q: Page, x: nat, p: Page): (t: State)
    requires q in s.pt && x < |s.pt[q]| && q in s.node
  {
    var c := Child(s.node[q], x);
    s.(pt := s.pt[q := s.pt[q][x := NewPte(p, NOPERM)]][p := Zeros()], data := s.data - {p},
       node := s.node[p := c], at := s.at[c := p])
  }

  lemma AttachedEntry(s: State, q: Page, x: nat, p: Page, r: Page, y: nat)
    requires q in s.pt && |s.pt[q]| == 512 && x < 512 && q in s.node && p !in s.pt
    ensures Entry(Attached(s, q, x, p).pt, r, y) == if r == q && y == x then NewPte(p, NOPERM) else Entry(s.pt, r, y)
  {
    var t := Attached(s, q, x, p);
    if r == p {
      assert t.pt[p] == Zeros();
      assert Entry(t.pt, p, y) == NOPTE;
    } else if r == q {
      assert t.pt[r] == s.pt[q][x := NewPte(p, NOPERM)];
    } else {
      assert r in t.pt ==> t.pt[r] == s.pt[r];
    }
  }

  lemma ChildKey(k: Key, x: nat, l: Key, y: nat)
    requires k.level > 0 && l.level > 0 && x < 512 && y < 512
    ensures Child(k, x).prefix / 512 == k.prefix && Child(k, x).prefix % 512 == x
    ensures Child(k, x).root == k.root && Child(k, x).level == k.level - 1
    ensures Child(k, x) == Child(l, y) ==> k == l && x == y
  {}

  /** Where a new table may be hung. */
  ghost predicate CanAttach(s: State, q: Page, x: nat, p: Page) {
    && q in s.node && q in s.pt && |s.pt[q]| == 512 && s.node[q].level > 0 && x < 512
    && Child(s.node[q], x) !in s.at && p !in s.pt
  }

  lemma AttachedLeaf(s: State, q: Page, x: nat, p: Page, r: Page, v: nat)
    requires Indexed(s.pt, s.node, s.at) && CanAttach(s, q, x, p)
    ensures Leaf(Attached(s, q, x, p).pt, Attached(s, q, x, p).at, r, v) == Leaf(s.pt, s.at, r, v)
  {
    hide Entry;
    var t := Attached(s, q, x, p);
    var k := Key(r, 0, v / 512);
    if k in t.at { AttachedEntry(s, q, x, p, t.at[k], v % 512); }
    NoEntry(s.pt, p, v % 512);
  }

  lemma NoEntry(pt: Tables, p: Page, x: nat)
    requires p !in pt
    ensures Entry(pt, p, x) == NOPTE
  {}

  lemma AttachedOldEntry(s: State, q: Page, x: nat, p: Page, r: Page, y: nat)
    requires CanAttach(s, q, x, p) && r != p && EntryOk(s.pt, s.node, s.at, r, y)
    requires r in s.node ==> (s.node[r] == s.node[q] ==> r == q)
    ensures var t := Attached(s, q, x, p); EntryOk(t.pt, t.node, t.at, r, y)
  {
    hide Entry;
    if r in s.node && y < 512 && s.node[r].level > 0 {
      AttachedEntry(s, q, x, p, r, y);
      ChildKey(s.node[r], y, s.node[q], x);
    }
  }

  lemma AttachedNewEntry(s: State, q: Page, x: nat, p: Page, y: nat)
    requires Indexed(s.pt, s.node, s.at) && CanAttach(s, q, x, p)
    ensures var t := Attached(s, q, x, p); EntryOk(t.pt, t.node, t.at, p, y)
  {
    hide Entry;
    var c := Child(s.node[q], x);
    if y < 512 && c.level > 0 {
      AttachedEntry(s, q, x, p, p, y);
      NoEntry(s.pt, p, y);
      ChildKey(c, y, c, y);
    }
  }

  lemma IndexedGrows(pt: Tables, pt': Tables, node: map<Page, Key>, at: Index, c: Key, p: Page)
    requires Indexed(pt, node, at) && c !in at && p !in node && (forall q :: q in pt' <==> q in pt || q == p)
    requires c.level < 2 && Key(c.root, c.level + 1, c.prefix / 512) in at
    ensures Indexed(pt', node[p := c], at[c := p])
  {}

  lemma AttachedIndexed(s: State, q: Page, x: nat, p: Page)
    requires Indexed(s.pt, s.node, s.at) && CanAttach(s, q, x, p)
    ensures var t := Attached(s, q, x, p); Indexed(t.pt, t.node, t.at)
  {
    assert s.node[q].level <= 2 && s.node[q] in s.at && p !in s.node;
    ChildKey(s.node[q], x, s.node[q], x);
    hide Child, Zeros, Indexed;
    IndexedGrows(s.pt, Attached(s, q, x, p).pt, s.node, s.at, Child(s.node[q], x), p);
  }

  lemma AttachedTree(s: State, q: Page, x: nat, p: Page)
    requires Tree(s.pt, s.node, s.at) && CanAttach(s, q, x, p)
    ensures var t := Attached(s, q, x, p); Tree(t.pt, t.node, t.at)
  {
    hide Entry, EntryOk;
    var t := Attached(s, q, x, p);
    AttachedIndexed(s, q, x, p);
    forall r: Page, y: nat ensures EntryOk(t.pt, t.node, t.at, r, y) {
      if r == p { AttachedNewEntry(s, q, x, p, y); } else {
        assert EntryOk(s.pt, s.node, s.at, r, y);
        OneTable(s.pt, s.node, s.at, r, q);
        AttachedOldEntry(s, q, x, p, r, y);
      }
    }
  }

  lemma OneTable(pt: Tables, node: map<Page, Key>, at: Index, r: Page, q: Page)
    requires Indexed(pt, node, at)
    ensures r in node && q in node && node[r] == node[q] ==> r == q
  {}

  lemma AttachedPartition(s: State, q: Page, x: nat, p: Page)
    requires Partition(s.free, s.pt, s.data, s.all) && CanAttach(s, q, x, p) && p in s.data
    ensures var t := Attached(s, q, x, p); Partition(t.free, t.pt, t.data, t.all)
  {}

  /** The same translations are owned by the same pages. */
  lemma SameLeavesOwned(s: State, t: State)
    requires Owned(s.pt, s.at, s.user, s.foreign) && t.user == s.user && t.foreign == s.foreign
    requires forall r: Page, v: nat :: Leaf(t.pt, t.at, r, v) == Leaf(s.pt, s.at, r, v)
    ensures Owned(t.pt, t.at, t.user, t.foreign)
  {
    hide Leaf;
    forall r: Page, v: nat ensures LeafOk(t.pt, t.at, t.user, t.foreign, r, v) {
      assert LeafOk(s.pt, s.at, s.user, s.foreign, r, v);
    }
  }

  /** Hanging a zeroed table under an invalid entry keeps every translation. */
  lemma AttachedKeeps(s: State, q: Page, x: nat, p: Page)
    requires Inv(s) && CanAttach(s, q, x, p) && p in s.data && p !in s.user
    ensures Inv(Attached(s, q, x, p))
    ensures forall r: Page, v: nat :: Lookup(Attached(s, q, x, p), r, v) == Lookup(s, r, v)
  {
    hide Entry, EntryOk, Leaf, Indexed, Owned, Partition;
    var t := Attached(s, q, x, p);
    forall r: Page, v: nat ensures Leaf(t.pt, t.at, r, v) == Leaf(s.pt, s.at, r, v) { AttachedLeaf(s, q, x, p, r, v); }
    AttachedTree(s, q, x, p);
    AttachedPartition(s, q, x, p);
    SameLeavesOwned(s, t);
  }

  // ---------- Writing a leaf ----------

  ghost predicate HasTable(s: State, r: Page, v: nat) { Key(r, 0, v / 512) in s.at }

  ghost predicate TableOk(s: State, r: Page, v: nat) {
    var k := Key(r, 0, v / 512);
    k in s.at && s.at[k] in s.pt && |s.pt[s.at[k]]| == 512
  }

  /** *pte = e for the leaf entry of page number v. */
  ghost function SetLeaf(s: State, r: Page, v: nat, e: Pte): (t: State) {
    if TableOk(s, r, v) then
      var q := s.at[Key(r, 0, v / 512)];
      s.(pt := s.pt[q := s.pt[q][v % 512 := e]])
    else s
  }

  lemma TableShape(s: State, r: Page, v: nat)
    requires Inv(s) && HasTable(s, r, v)
    ensures TableOk(s, r, v)
  { hide Owned, EntryOk; }

  /** Exactly the named page's translation changes. */
  lemma SetLeafLookup(s: State, r: Page, v: nat, e: Pte, r': Page, v': nat)
    requires Indexed(s.pt, s.node, s.at) && TableOk(s, r, v)
    ensures Lookup(SetLeaf(s, r, v, e), r', v') == if r' == r && v' == v then e else Lookup(s, r', v')
  {
    var k, k' := Key(r, 0, v / 512), Key(r', 0, v' / 512);
    assert k == k' && v % 512 == v' % 512 ==> v == v';
    assert k' in s.at && s.at[k] == s.at[k'] ==> k == k';
  }

  lemma SetLeafTree(s: State, r: Page, v: nat, e: Pte)
    requires Tree(s.pt, s.node, s.at) && TableOk(s, r, v)
    ensures var t := SetLeaf(s, r, v, e); Tree(t.pt, t.node, t.at)
  {
    var t := SetLeaf(s, r, v, e);
    forall q: Page, x: nat ensures EntryOk(t.pt, t.node, t.at, q, x) { assert EntryOk(s.pt, s.node, s.at, q, x); }
  }

  lemma SetLeafPartition(s: State, r: Page, v: nat, e: Pte)
    requires Partition(s.free, s.pt, s.data, s.all) && TableOk(s, r, v)
    ensures var t := SetLeaf(s, r, v, e); Partition(t.free, t.pt, t.data, t.all)
  {}

  /** mappages of one page: p becomes the page of (r, v), owned by the mapping or foreign to it. */
  ghost function Mapped(s: State, r: Page, v: nat, p: Page, perm: Perm, owned: bool): (t: State)
  {
    SetLeaf(s, r, v, NewPte(p, perm)).(
      user := if owned then s.user[p := (r, v)] else s.user,
      foreign := if owned then s.foreign else s.foreign + {(r, v)})
  }

  ghost predicate CanMap(s: State, r: Page, v: nat, p: Page, perm: Perm, owned: bool) {
    && HasTable(s, r, v) && !Lookup(s, r, v).perm.v && perm.Rwx()
    && (owned ==> p in s.data && p !in s.user)
  }

  /** A new leaf, claimed by its page or foreign to it. */
  lemma OwnedGrows(pt: Tables, pt': Tables, at: Index, user: map<Page, (Page, nat)>, foreign: set<(Page, nat)>,
                   r: Page, v: nat, e: Pte, owned: bool)
    requires Owned(pt, at, user, foreign) && !Leaf(pt, at, r, v).perm.v && e.perm.v && e.perm.Rwx()
    requires owned ==> e.page !in user
    requires forall r': Page, v': nat :: Leaf(pt', at, r', v') == if r' == r && v' == v then e else Leaf(pt, at, r', v')
    ensures Owned(pt', at, if owned then user[e.page := (r, v)] else user,
                  if owned then foreign else foreign + {(r, v)})
  {
    hide Leaf;
    var user' := if owned then user[e.page := (r, v)] else user;
    var foreign' := if owned then foreign else foreign + {(r, v)};
    forall r': Page, v': nat
      ensures LeafOk(pt', at, user', foreign', r', v')
    {
      assert LeafOk(pt, at, user, foreign, r', v');
    }
  }

  lemma MappedOwned(s: State, r: Page, v: nat, p: Page, perm: Perm, owned: bool)
    requires Inv(s) && CanMap(s, r, v, p, perm, owned) && TableOk(s, r, v)
    ensures var t := Mapped(s, r, v, p, perm, owned); Owned(t.pt, t.at, t.user, t.foreign)
  {
    hide Leaf, EntryOk, Owned, Partition;
    var t, e := Mapped(s, r, v, p, perm, owned), NewPte(p, perm);
    forall r': Page, v': nat
      ensures Leaf(t.pt, t.at, r', v') == if r' == r && v' == v then e else Leaf(s.pt, s.at, r', v')
    { SetLeafLookup(s, r, v, e, r', v'); }
    OwnedGrows(s.pt, t.pt, s.at, s.user, s.foreign, r, v, e, owned);
  }

  lemma MappedKeeps(s: State, r: Page, v: nat, p: Page, perm: Perm, owned: bool)
    requires Inv(s) && CanMap(s, r, v, p, perm, owned)
    ensures Inv(Mapped(s, r, v, p, perm, owned))
    ensures forall r': Page, v': nat ::
      Lookup(Mapped(s, r, v, p, perm, owned), r', v') ==
        if r' == r && v' == v then NewPte(p, perm) else Lookup(s, r', v')
  {
    hide Leaf, EntryOk, Partition, Owned;
    TableShape(s, r, v);
    var t := Mapped(s, r, v, p, perm, owned);
    forall r': Page, v': nat
      ensures Lookup(t, r', v') == if r' == r && v' == v then NewPte(p, perm) else Lookup(s, r', v')
    { SetLeafLookup(s, r, v, NewPte(p, perm), r', v'); }
    SetLeafTree(s, r, v, NewPte(p, perm));
    SetLeafPartition(s, r, v, NewPte(p, perm));
    MappedOwned(s, r, v, p, perm, owned);
  }

  /** *pte = 0: the mapping and its claim on a page are gone. */
  ghost function Unmapped(s: State, r: Page, v: nat): (t: State)
  {
    SetLeaf(s, r, v, NOPTE).(
      user := if (r, v) in s.foreign then s.user else s.user - {Lookup(s, r, v).page}, foreign := s.foreign - {(r, v)})
  }

  lemma UnmappedOwned(s: State, r: Page, v: nat)
    requires Inv(s) && TableOk(s, r, v) && Lookup(s, r, v).perm.v
    ensures var t := Unmapped(s, r, v); Owned(t.pt, t.at, t.user, t.foreign)
  {
    hide Leaf, EntryOk;
    var t := Unmapped(s, r, v);
    forall r': Page, v': nat
      ensures Leaf(t.pt, t.at, r', v') == if r' == r && v' == v then NOPTE else Leaf(s.pt, s.at, r', v')
    { SetLeafLookup(s, r, v, NOPTE, r', v'); }
    assert LeafOk(s.pt, s.at, s.user, s.foreign, r, v);
    forall r': Page, v': nat ensures LeafOk(t.pt, t.at, t.user, t.foreign, r', v') {
      assert LeafOk(s.pt, s.at, s.user, s.foreign, r', v');
    }
  }

  lemma UnmappedKeeps(s: State, r: Page, v: nat)
    requires Inv(s) && HasTable(s, r, v) && Lookup(s, r, v).perm.v
    ensures Inv(Unmapped(s, r, v))
    ensures forall r': Page, v': nat ::
      Lookup(Unmapped(s, r, v), r', v') == if r' == r && v' == v then NOPTE else Lookup(s, r', v')
  {
    hide Leaf, EntryOk, Partition, Owned;
    TableShape(s, r, v);
    var t := Unmapped(s, r, v);
    forall r': Page, v': nat ensures Lookup(t, r', v') == if r' == r && v' == v then NOPTE else Lookup(s, r', v')
    { SetLeafLookup(s, r, v, NOPTE, r', v'); }
    SetLeafTree(s, r, v, NOPTE);
    SetLeafPartition(s, r, v, NOPTE);
    UnmappedOwned(s, r, v);
  }

  // ---------- walk ----------

  /** PX(level, va): nine bits from bit 12 + 9 * level. */
  function Px(level: nat, va: nat): (x: nat)
    ensures x < 512
  { (if level == 0 then va / 0x1000 else if level == 1 then va / 0x20_0000 else va / 0x4000_0000) % 512 }

  /** The table that indexes page number v at this level. */
  ghost function KeyOf(r: Page, level: nat, v: nat): (k: Key) {
    Key(r, level, if level == 0 then v / 0x200 else if level == 1 then v / 0x4_0000 else v / 0x800_0000)
  }

  lemma PxChild(r: Page, level: nat, va: nat)
    requires 0 < level <= 2
    ensures Child(KeyOf(r, level, va / PGSIZE), Px(level, va)) == KeyOf(r, level - 1, va / PGSIZE)
    ensures KeyOf(r, level, va / PGSIZE).level == level && KeyOf(r, level, va / PGSIZE).root == r
  {
    var v := va / PGSIZE;
    if level == 1 {
      assert va / 0x20_0000 == v / 0x200 && v / 0x200 / 512 == v / 0x4_0000;
    } else {
      assert va / 0x4000_0000 == v / 0x4_0000 && v / 0x4_0000 / 512 == v / 0x800_0000;
    }
  }

  ghost predicate IsRoot(s: State, r: Page) { Key(r, 2, 0) in s.at && s.at[Key(r, 2, 0)] == r }

  /** Tree r may have gained tables from the free list; every translation and every other page is as it was. */
  ghost predicate Grown(s: State, t: State, r: Page) {
    && t.data == s.data && t.all == s.all && t.user == s.user && t.foreign == s.foreign
    && |t.free| <= |s.free| && t.free == s.free[|s.free| - |t.free|..]
    && (forall k <- s.at :: k in t.at && t.at[k] == s.at[k])
    && (forall k <- t.at :: k in s.at || k.root == r)
    && (forall r': Page, v: nat :: Lookup(t, r', v) == Lookup(s, r', v))
  }

  lemma GrownTrans(s: State, t: State, u: State, r: Page)
    requires Grown(s, t, r) && Grown(t, u, r)
    ensures Grown(s, u, r)
  { hide Lookup; }

  lemma GrownRefl(s: State, r: Page)
    ensures Grown(s, s, r)
  { hide Lookup; }

  /** kalloc of a table page followed by hanging it. */
  lemma TableGrown(s: State, q: Page, x: nat)
    requires Inv(s) && s.free != [] && CanAttach(Taken(s), q, x, s.free[0]) && s.node[q].level > 0
    ensures Inv(Attached(Taken(s), q, x, s.free[0]))
    ensures Grown(s, Attached(Taken(s), q, x, s.free[0]), s.node[q].root)
  {
    hide Partition, Tree, Owned, Leaf;
    TakenKeeps(s);
    AttachedKeeps(Taken(s), q, x, s.free[0]);
  }

  /** The walk has reached the table for va at this level. */
  ghost predicate Reached(s: State, r: Page, level: nat, va: nat, q: Page) {
    KeyOf(r, level, va / PGSIZE) in s.at && s.at[KeyOf(r, level, va / PGSIZE)] == q
  }

  /** One level of the walk reads the flat map's structure off the entry. */
  lemma WalkStep(s: State, r: Page, level: nat, va: nat, q: Page)
    requires Inv(s) && 0 < level <= 2 && Reached(s, r, level, va, q)
    ensures q in s.pt && |s.pt[q]| == 512 && q in s.node && s.node[q] == KeyOf(r, level, va / PGSIZE)
    ensures s.pt[q][Px(level, va)].perm.v ==> Reached(s, r, level - 1, va, s.pt[q][Px(level, va)].page)
    ensures !s.pt[q][Px(level, va)].perm.v ==> Child(s.node[q], Px(level, va)) !in s.at
  {
    hide Owned, Px, KeyOf;
    PxChild(r, level, va);
    assert EntryOk(s.pt, s.node, s.at, q, Px(level, va));
  }

  lemma WalkAlloc(s: State, r: Page, level: nat, va: nat, q: Page)
    requires Inv(s) && 0 < level <= 2 && Reached(s, r, level, va, q) && s.free != []
    requires q in s.pt && |s.pt[q]| == 512 && q in s.node && s.node[q] == KeyOf(r, level, va / PGSIZE)
    requires Child(s.node[q], Px(level, va)) !in s.at
    ensures var t := Attached(Taken(s), q, Px(level, va), s.free[0]);
      Inv(t) && Grown(s, t, r) && Reached(t, r, level - 1, va, s.free[0])
  {
    hide Tree, Owned, Px, Grown;
    TakenKeeps(s);
    PxChild(r, level, va);
    TableGrown(s, q, Px(level, va));
  }

  lemma FreeNotNull(s: State)
    requires Inv(s) && s.free != []
    ensures s.free[0] != 0
  {
    hide Tree, Owned;
    assert s.free[0] in s.free;
  }

  /** A table missing at one level is missing at every level below. */
  lemma WalkMissing(s: State, r: Page, level: nat, va: nat, q: Page)
    requires Inv(s) && 0 < level <= 2 && Reached(s, r, level, va, q) && q in s.node &&
        s.node[q] == KeyOf(r, level, va / PGSIZE)
    requires Child(s.node[q], Px(level, va)) !in s.at
    ensures !HasTable(s, r, va / PGSIZE)
  {
    hide Owned, EntryOk, Px, Partition;
    PxChild(r, level, va);
    if level == 2 {
      PxChild(r, 1, va);
      ChildKey(KeyOf(r, 1, va / PGSIZE), Px(1, va), KeyOf(r, 1, va / PGSIZE), Px(1, va));
    }
  }

  // ---------- mappages ----------

  /** The entry, the null pointer, or the "walk" panic for an address past MAXVA. */
  datatype Walked = Found | Missing | TooHigh

  /** 0, -1, or one of the panics: "remap", "size", "not aligned", and walk's. */
  datatype Outcome = Done | NoMemory | Remap | NoSize | Misaligned | OutOfRange

  ghost predicate InRange(v: nat, v0: nat, n: nat) { v0 <= v < v0 + n }

  /** Tree r has gained n leaves from page number v0 (and perhaps tables); nothing else has changed. */
  ghost predicate MapDone(s: State, t: State, r: Page, v0: nat, n: nat, pa: Page, perm: Perm, owned: bool) {
    && t.data == s.data && t.all == s.all
    && |t.free| <= |s.free| && t.free == s.free[|s.free| - |t.free|..]
    && (forall k <- s.at :: k in t.at && t.at[k] == s.at[k])
    && (forall k <- t.at :: k in s.at || k.root == r)
    && (forall r': Page, v: nat :: Lookup(t, r', v) ==
          if r' == r && InRange(v, v0, n) then NewPte(pa + (v - v0), perm) else Lookup(s, r', v))
    && t.user == (if owned && n == 1 then s.user[pa := (r, v0)] else s.user)
    && (owned ==> t.foreign == s.foreign)
    && (!owned ==> forall f :: f in t.foreign <==> f in s.foreign || (f.0 == r && InRange(f.1, v0, n)))
  }

  /** What a caller of mappages must have: a leaf's permissions and pages it may map. */
  ghost predicate MayMap(s: State, r: Page, v0: nat, n: nat, pa: Page, perm: Perm, owned: bool) {
    && IsRoot(s, r) && perm.Rwx()
    && (owned ==> n <= 1 && pa in s.data && pa !in s.user)
  }

  /** None of the n pages from v0 on is mapped. */
  ghost predicate NoneValid(s: State, r: Page, v0: nat, n: nat) {
    forall v: nat :: InRange(v, v0, n) ==> !Lookup(s, r, v).perm.v
  }

  lemma NoneValidMore(s: State, r: Page, v0: nat, n: nat)
    ensures NoneValid(s, r, v0, 0)
    ensures NoneValid(s, r, v0, n) && !Lookup(s, r, v0 + n).perm.v ==> NoneValid(s, r, v0, n + 1)
  {
    hide Lookup;
    assert forall v: nat :: InRange(v, v0, n + 1) ==> InRange(v, v0, n) || v == v0 + n;
  }

  lemma NoneValidOne(s: State, r: Page, v: nat)
    requires NoneValid(s, r, v, 1)
    ensures !Lookup(s, r, v).perm.v
  {
    hide Lookup;
    assert InRange(v, v, 1);
  }

  ghost predicate MapResult(s: State, t: State, r: Page, v0: nat, n: nat, pa: Page, perm: Perm, owned: bool,
                            o: Outcome, m: nat)
  {
    && MapDone(s, t, r, v0, m, pa, perm, owned) && m <= n && !o.Misaligned?
    && (o.NoSize? <==> n == 0) && (o.Done? <==> n > 0 && m == n)
    && (o.OutOfRange? <==> m < n && v0 + m >= NVPN) && (m == 0 || v0 + m <= NVPN)
    && NoneValid(s, r, v0, m) && (o.NoMemory? ==> !Lookup(s, r, v0 + m).perm.v)
    && (o.NoMemory? ==> t.free == [] && |s.free| <= 2 * m + 1)
    && |s.free| <= |t.free| + 2 * (m + 1) && (o.Done? ==> |s.free| <= |t.free| + 2 * m)
    && (o.Remap? ==> Lookup(s, r, v0 + m).perm.v)
  }

  lemma MapNone(s: State, r: Page, v0: nat, pa: Page, perm: Perm, owned: bool)
    ensures MapDone(s, s, r, v0, 0, pa, perm, owned)
  { hide Lookup; }

  lemma MapGrown(s: State, t: State, u: State, r: Page, v0: nat, n: nat, pa: Page, perm: Perm, owned: bool)
    requires MapDone(s, t, r, v0, n, pa, perm, owned) && Grown(t, u, r)
    ensures MapDone(s, u, r, v0, n, pa, perm, owned)
  { hide Lookup; }

  /** One turn of mappages, once walk has found the entry and it was invalid. */
  lemma MapNext(s: State, t: State, r: Page, v0: nat, n: nat, pa: Page, perm: Perm, owned: bool)
    requires MapDone(s, t, r, v0, n, pa, perm, owned) && Inv(t)
    requires CanMap(t, r, v0 + n, pa + n, perm, owned) && (owned ==> n == 0)
    ensures var u := Mapped(t, r, v0 + n, pa + n, perm, owned);
      Inv(u) && MapDone(s, u, r, v0, n + 1, pa, perm, owned)
  {
    hide Inv, Lookup, CanMap, Mapped;
    MappedKeeps(t, r, v0 + n, pa + n, perm, owned);
    MappedFields(t, r, v0 + n, pa + n, perm, owned);
  }

  lemma MappedFields(s: State, r: Page, v: nat, p: Page, perm: Perm, owned: bool)
    ensures var t := Mapped(s, r, v, p, perm, owned);
      && t.data == s.data && t.all == s.all && t.free == s.free && t.at == s.at && t.node == s.node
      && t.user == (if owned then s.user[p := (r, v)] else s.user)
      && t.foreign == if owned then s.foreign else s.foreign + {(r, v)}
  {}

  lemma EntryIsLookup(s: State, r: Page, v: nat)
    requires Inv(s) && HasTable(s, r, v)
    ensures TableOk(s, r, v) && s.pt[s.at[Key(r, 0, v / 512)]][v % 512] == Lookup(s, r, v)
  { hide Owned, EntryOk; }

  lemma RootKept(s: State, t: State, r: Page, v0: nat, n: nat, pa: Page, perm: Perm, owned: bool)
    requires IsRoot(s, r) && MapDone(s, t, r, v0, n, pa, perm, owned)
    ensures IsRoot(t, r) && t.data == s.data && (owned && n == 0 ==> t.user == s.user)
  { hide Lookup; }

  lemma OldLookup(s: State, t: State, r: Page, v0: nat, n: nat, pa: Page, perm: Perm, owned: bool)
    requires MapDone(s, t, r, v0, n, pa, perm, owned)
    ensures Lookup(t, r, v0 + n) == Lookup(s, r, v0 + n)
  { hide Lookup; }

  // ---------- uvmunmap ----------

  /** Page p belongs to one of the n mappings of tree r from page number v0. */
  ghost predicate Released(s: State, p: Page, r: Page, v0: nat, n: nat) {
    p in s.user && s.user[p].0 == r && InRange(s.user[p].1, v0, n)
  }

  /** Exactly those n translations are gone, their pages freed if asked; nothing else has changed. */
  ghost predicate UnmapDone(s: State, t: State, r: Page, v0: nat, n: nat, doFree: bool) {
    && t.all == s.all && t.at == s.at && t.node == s.node
    && (forall r': Page, v: nat :: Lookup(t, r', v) == if r' == r && InRange(v, v0, n) then NOPTE else Lookup(s, r', v))
    && (forall p :: p in t.user <==> p in s.user && !Released(s, p, r, v0, n))
    && (forall p <- t.user :: t.user[p] == s.user[p])
    && (forall f :: f in t.foreign <==> f in s.foreign && !(f.0 == r && InRange(f.1, v0, n)))
    && (forall p :: p in t.data <==> p in s.data && !(doFree && Released(s, p, r, v0, n)))
    && (forall p <- t.data :: t.data[p] == s.data[p])
    && (forall p :: p in t.free <==> p in s.free || (doFree && Released(s, p, r, v0, n)))
  }

  lemma UnmapNone(s: State, r: Page, v0: nat, doFree: bool)
    ensures UnmapDone(s, s, r, v0, 0, doFree)
  { hide Lookup; }

  /** No leaf table, or an invalid entry: this page number was not mapped. */
  lemma UnmapSkip(s: State, t: State, r: Page, v0: nat, n: nat, doFree: bool)
    requires UnmapDone(s, t, r, v0, n, doFree) && Inv(s) && Lookup(t, r, v0 + n) == NOPTE
    ensures UnmapDone(s, t, r, v0, n + 1, doFree)
  {
    hide Leaf, Tree, Partition;
    assert Lookup(s, r, v0 + n) == NOPTE;
    forall p ensures Released(s, p, r, v0, n + 1) <==> Released(s, p, r, v0, n) {}
  }

  lemma InvalidIsZero(s: State, r: Page, v: nat)
    requires Inv(s)
    ensures !Lookup(s, r, v).perm.v ==> Lookup(s, r, v) == NOPTE
    ensures !HasTable(s, r, v) ==> Lookup(s, r, v) == NOPTE
  {
    hide Tree, Partition;
    assert LeafOk(s.pt, s.at, s.user, s.foreign, r, v);
  }

  /** The page under a mapping that is not foreign is the mapping's own. */
  lemma OwnPage(s: State, r: Page, v: nat)
    requires Inv(s) && Lookup(s, r, v).perm.v && (r, v) !in s.foreign
    ensures var p := Lookup(s, r, v).page; p in s.user && s.user[p] == (r, v) && p in s.data
  {
    hide Tree, Partition;
    assert LeafOk(s.pt, s.at, s.user, s.foreign, r, v);
  }

  /** kfree(pa) and *pte = 0, or only the latter. */
  ghost function Dropped(s: State, r: Page, v: nat, doFree: bool): (t: State) {
    if doFree then Given(Unmapped(s, r, v), Lookup(s, r, v).page) else Unmapped(s, r, v)
  }

  lemma DroppedKeeps(s: State, r: Page, v: nat, doFree: bool)
    requires Inv(s) && HasTable(s, r, v) && Lookup(s, r, v).perm.v && (doFree ==> (r, v) !in s.foreign)
    ensures Inv(Dropped(s, r, v, doFree)) && UnmapDone(s, Dropped(s, r, v, doFree), r, v, 1, doFree)
  {
    hide Inv, Leaf;
    UnmappedKeeps(s, r, v);
    TableShape(s, r, v);
    DroppedOwner(s, r, v);
    if doFree {
      OwnPage(s, r, v);
      GivenKeeps(Unmapped(s, r, v), Lookup(s, r, v).page);
    }
  }

  /** What (r, v) releases is its own page, or nothing if it is foreign. */
  lemma DroppedOwner(s: State, r: Page, v: nat)
    requires Inv(s) && Lookup(s, r, v).perm.v
    ensures forall p :: Released(s, p, r, v, 1) <==> (r, v) !in s.foreign && p == Lookup(s, r, v).page
  {
    hide Leaf, Tree, Partition;
    assert LeafOk(s.pt, s.at, s.user, s.foreign, r, v);
  }

  lemma DroppedIs(s: State, r: Page, v: nat, doFree: bool, q: Page, x: nat)
    requires TableOk(s, r, v) && q == s.at[Key(r, 0, v / 512)] && x == v % 512
    ensures Dropped(s, r, v, doFree) == s.(
      pt := s.pt[q := s.pt[q][x := NOPTE]],
      foreign := s.foreign - {(r, v)},
      user := if (r, v) in s.foreign then s.user else s.user - {Lookup(s, r, v).page},
      free := if doFree then [Lookup(s, r, v).page] + s.free else s.free,
      data := if doFree then s.data - {Lookup(s, r, v).page} else s.data)
  { hide Lookup; }

  lemma UnmapJoin(s: State, t: State, u: State, r: Page, v0: nat, n: nat, doFree: bool)
    requires UnmapDone(s, t, r, v0, n, doFree) && UnmapDone(t, u, r, v0 + n, 1, doFree)
    ensures UnmapDone(s, u, r, v0, n + 1, doFree)
  {
    hide Lookup;
    forall p ensures Released(s, p, r, v0, n + 1) <==> Released(s, p, r, v0, n) || Released(t, p, r, v0 + n, 1) {}
  }

  lemma UnmapFacts(s: State, t: State, r: Page, v0: nat, n: nat, doFree: bool)
    requires UnmapDone(s, t, r, v0, n, doFree)
    ensures IsRoot(s, r) ==> IsRoot(t, r)
    ensures forall f :: f in t.foreign ==> f in s.foreign
  { hide Lookup; }

  // ---------- Growing user memory, with rollback ----------

  /** The bytes and permissions of a new user page. */
  datatype NewPage = NewPage(bytes: seq<byte>, perm: Perm)

  /** Tree r has gained the pages `ps` from page number v0, on frames that were free; nothing else has changed, except
      that r may have gained tables. */
  ghost predicate AllocDone(s: State, t: State, r: Page, v0: nat, ps: seq<NewPage>) {
    && t.all == s.all && t.foreign == s.foreign
    && (forall p <- t.free :: p in s.free)
    && (forall k <- s.at :: k in t.at && t.at[k] == s.at[k])
    && (forall k <- t.at :: k in s.at || k.root == r)
    && (forall r': Page, v: nat :: !(r' == r && InRange(v, v0, |ps|)) ==> Lookup(t, r', v) == Lookup(s, r', v))
    && (forall v: nat :: InRange(v, v0, |ps|) ==> PageAdded(s, t, r, v, ps[v - v0]))
    && (forall p <- s.user :: p in t.user && t.user[p] == s.user[p])
    && (forall p <- t.user :: p in s.user || (Released(t, p, r, v0, |ps|) && p in s.free && p !in s.data))
    && (forall p <- s.data :: p in t.data && t.data[p] == s.data[p])
    && (forall p <- t.data :: p in s.data || Released(t, p, r, v0, |ps|))
  }

  ghost predicate PageAdded(s: State, t: State, r: Page, v: nat, n: NewPage) {
    var p := Lookup(t, r, v).page;
    && Lookup(t, r, v) == NewPte(p, n.perm)
    && p in t.data && t.data[p] == n.bytes && p in t.user && t.user[p] == (r, v)
    && p !in s.data && p !in s.user && p in s.free
  }

  /** Every translation, user page and byte is as before; r may have kept tables it gained. */
  ghost predicate RolledBack(s: State, t: State, r: Page) {
    && t.all == s.all && t.foreign == s.foreign && t.user == s.user && t.data == s.data
    && (forall p <- t.free :: p in s.free)
    && (forall k <- s.at :: k in t.at && t.at[k] == s.at[k])
    && (forall k <- t.at :: k in s.at || k.root == r)
    && (forall r': Page, v: nat :: Lookup(t, r', v) == Lookup(s, r', v))
  }

  lemma AllocNone(s: State, r: Page, v0: nat)
    ensures AllocDone(s, s, r, v0, [])
  { hide Lookup; }

  /** kalloc and the fill that follows it. */
  ghost function Filled(s: State, f: seq<byte>): (t: State)
    requires s.free != []
  { Taken(s).(data := Taken(s).data[s.free[0] := f]) }

  lemma FilledKeeps(s: State, f: seq<byte>)
    requires Inv(s) && s.free != [] && |f| == PGSIZE
    ensures Inv(Filled(s, f)) && s.free[0] in Filled(s, f).data && s.free[0] !in s.user && s.free[0] !in s.data
  {
    hide Tree, Owned;
    TakenKeeps(s);
  }

  /** kalloc, fill and map: one page gained. */
  lemma AllocOne(t: State, u: State, r: Page, v: nat, n: NewPage)
    requires Inv(t) && t.free != [] && MapDone(Filled(t, n.bytes), u, r, v, 1, t.free[0], n.perm, true)
    ensures AllocDone(t, u, r, v, [n])
  {
    hide Inv, Lookup;
    var p := t.free[0];
    TakenKeeps(t);
    var m := Filled(t, n.bytes);
    forall r': Page, v': nat ensures Lookup(m, r', v') == Lookup(t, r', v') { SameTables(m, t, r', v'); }
    assert Lookup(u, r, v) == NewPte(p + (v - v), n.perm);
    assert PageAdded(t, u, r, v, n);
    forall q <- u.free ensures q in t.free { assert q in m.free; }
    assert u.data == m.data;
  }

  lemma AllocJoin(s: State, t: State, u: State, r: Page, v0: nat, ps: seq<NewPage>, qs: seq<NewPage>)
    requires AllocDone(s, t, r, v0, ps) && AllocDone(t, u, r, v0 + |ps|, qs)
    ensures AllocDone(s, u, r, v0, ps + qs)
  {
    hide Lookup, PageAdded;
    forall v: nat | InRange(v, v0, |ps + qs|) ensures PageAdded(s, u, r, v, (ps + qs)[v - v0]) {
      if v < v0 + |ps| {
        assert InRange(v, v0, |ps|);
        PageStays(s, t, u, r, v, ps[v - v0]);
      } else {
        assert InRange(v, v0 + |ps|, |qs|);
        PageNew(s, t, u, r, v, qs[v - v0 - |ps|]);
      }
    }
    forall p <- u.user ensures p in s.user || (Released(u, p, r, v0, |ps + qs|) && p in s.free && p !in s.data) {
      if p !in s.user && p in t.user { assert Released(t, p, r, v0, |ps|); }
    }
    forall p <- u.data ensures p in s.data || Released(u, p, r, v0, |ps + qs|) {
      if p !in s.data && p in t.data { assert Released(t, p, r, v0, |ps|); }
    }
  }

  lemma PageStays(s: State, t: State, u: State, r: Page, v: nat, n: NewPage)
    requires PageAdded(s, t, r, v, n) && Lookup(u, r, v) == Lookup(t, r, v)
    requires forall p <- t.user :: p in u.user && u.user[p] == t.user[p]
    requires forall p <- t.data :: p in u.data && u.data[p] == t.data[p]
    ensures PageAdded(s, u, r, v, n)
  { hide Lookup; }

  lemma PageNew(s: State, t: State, u: State, r: Page, v: nat, n: NewPage)
    requires PageAdded(t, u, r, v, n)
    requires forall p <- s.user :: p in t.user
    requires forall p <- s.data :: p in t.data
    requires forall p <- t.free :: p in s.free
    ensures PageAdded(s, u, r, v, n)
  { hide Lookup; }

  lemma SameTables(s: State, t: State, r: Page, v: nat)
    requires s.pt == t.pt && s.at == t.at
    ensures Lookup(s, r, v) == Lookup(t, r, v)
  {}

  /** mappages ran out of memory for a table: the frame goes back and nothing was gained but tables. */
  lemma AllocFailed(t: State, u: State, r: Page, v: nat, n: NewPage)
    requires Inv(t) && t.free != [] && MapDone(Filled(t, n.bytes), u, r, v, 0, t.free[0], n.perm, true)
    ensures AllocDone(t, Given(u, t.free[0]), r, v, [])
  {
    hide Inv, Lookup;
    var p := t.free[0];
    TakenKeeps(t);
    var m, g := Filled(t, n.bytes), Given(u, p);
    assert g.data == t.data;
    forall q <- g.free ensures q in t.free { assert q == p || q in m.free; }
    forall r': Page, v': nat
      ensures Lookup(g, r', v') == Lookup(t, r', v')
    {
      SameTables(m, t, r', v');
      SameTables(g, u, r', v');
    }
  }

  /** Unmapping and freeing what was added undoes it. */
  lemma AllocUndone(s: State, t: State, u: State, r: Page, v0: nat, ps: seq<NewPage>)
    requires AllocDone(s, t, r, v0, ps) && UnmapDone(t, u, r, v0, |ps|, true) && Vacant(s, r, v0, |ps|)
    requires forall p <- s.user :: !Released(s, p, r, v0, |ps|)
    requires forall f <- s.foreign :: !(f.0 == r && InRange(f.1, v0, |ps|))
    ensures RolledBack(s, u, r)
  {
    hide Lookup;
    assert u.user == s.user;
    assert u.foreign == s.foreign;
    assert u.data == s.data;
  }

  /** Nothing is mapped at these page numbers. */
  ghost predicate Vacant(s: State, r: Page, v0: nat, n: nat) {
    forall v: nat :: InRange(v, v0, n) ==> Lookup(s, r, v) == NOPTE
  }

  lemma VacantMore(s: State, r: Page, v0: nat, n: nat)
    ensures Vacant(s, r, v0, 0)
    ensures Vacant(s, r, v0, n) && Lookup(s, r, v0 + n) == NOPTE ==> Vacant(s, r, v0, n + 1)
  {
    hide Lookup;
    assert forall v: nat :: InRange(v, v0, n + 1) ==> InRange(v, v0, n) || v == v0 + n;
  }

  /** mappages panics at page number v. */
  ghost predicate Blocked(s: State, r: Page, v: nat) { v >= NVPN || Lookup(s, r, v).perm.v }

  lemma BlockedAt(s: State, r: Page, v: nat)
    ensures v >= NVPN || Lookup(s, r, v).perm.v ==> Blocked(s, r, v)
  {}

  lemma VacantUnowned(s: State, r: Page, v0: nat, n: nat)
    requires Inv(s) && Vacant(s, r, v0, n)
    ensures forall p <- s.user :: !Released(s, p, r, v0, n)
    ensures forall f <- s.foreign :: !(f.0 == r && InRange(f.1, v0, n))
  { hide Leaf, Tree, Partition; }

  lemma AllocFacts(s: State, t: State, r: Page, v0: nat, ps: seq<NewPage>)
    requires AllocDone(s, t, r, v0, ps)
    ensures IsRoot(s, r) ==> IsRoot(t, r)
    ensures t.foreign == s.foreign
    ensures forall r': Page, v: nat :: !(r' == r && InRange(v, v0, |ps|)) ==> Lookup(t, r', v) == Lookup(s, r', v)
    ensures forall p <- s.data :: p in t.data && t.data[p] == s.data[p]
  { hide Lookup, PageAdded; }

  function Pages(sz: nat): (n: nat) { (sz + PGSIZE - 1) / PGSIZE }

  ghost function ZeroPages(n: nat, perm: Perm): (ps: seq<NewPage>)
    ensures |ps| == n
  { seq(n, _ => NewPage(Fill(0), perm)) }

  lemma VacantPrefix(s: State, r: Page, v0: nat, m: nat, n: nat)
    requires Vacant(s, r, v0, n) && m <= n
    ensures Vacant(s, r, v0, m)
  {
    hide Lookup;
    forall v: nat | InRange(v, v0, m) ensures Lookup(s, r, v) == NOPTE { assert InRange(v, v0, n); }
  }

  lemma MapZeroFields(s: State, t: State, r: Page, v: nat, p: Page, perm: Perm)
    requires MapDone(s, t, r, v, 0, p, perm, true)
    ensures t.user == s.user && t.data == s.data
  { hide Lookup; }

  // ---------- freewalk ----------

  function Up(prefix: nat, d: nat): (n: nat) {
    if d == 0 then prefix else if d == 1 then prefix / 512 else prefix / 0x4_0000
  }

  /** Table c lies in the subtree of table k. */
  ghost predicate Under(k: Key, c: Key) {
    c.root == k.root && c.level <= k.level <= 2 && Up(c.prefix, k.level - c.level) == k.prefix
  }

  /** Which entry of table k leads to c. */
  ghost function Via(k: Key, c: Key): (x: nat)
    requires c.level < k.level
  { Up(c.prefix, k.level - 1 - c.level) % 512 }

  lemma UnderVia(k: Key, c: Key, x: nat)
    requires k.level <= 2 && x < 512
    ensures k.level > 0 && Under(Child(k, x), c) <==> Under(k, c) && c.level < k.level && Via(k, c) == x
  {}

  ghost function Subtree(at: Index, k: Key): (ks: set<Key>) { set c | c in at && Under(k, c) }

  /** The part of k's subtree behind its first n entries. */
  ghost function Behind(at: Index, k: Key, n: nat): (ks: set<Key>) {
    set c | c in at && Under(k, c) && c.level < k.level && Via(k, c) < n
  }

  /** The tables ks have been freed; nothing else has changed. */
  ghost predicate Cut(s: State, t: State, ks: set<Key>) {
    && t.data == s.data && t.user == s.user && t.foreign == s.foreign && t.all == s.all
    && t.at == s.at - ks
    && (forall p :: p in t.node <==> p in s.node && s.node[p] !in ks)
    && (forall p <- t.node :: t.node[p] == s.node[p])
    && (forall p :: p in t.free <==> p in s.free || (p in s.node && s.node[p] in ks))
    && (forall r: Page, v: nat :: Lookup(t, r, v) == Lookup(s, r, v))
  }

  lemma CutJoin(s: State, t: State, u: State, ks: set<Key>, ls: set<Key>)
    requires Cut(s, t, ks) && Cut(t, u, ls)
    ensures Cut(s, u, ks + ls)
  { hide Lookup; }

  /** The invariant, except that entry x of table q may still point to a table that is gone. */
  ghost predicate InvExcept(s: State, q: Page, x: nat) {
    && Partition(s.free, s.pt, s.data, s.all) && Indexed(s.pt, s.node, s.at) && Owned(s.pt, s.at, s.user, s.foreign)
    && (forall p <- s.user :: p in s.data)
    && forall r: Page, y: nat :: r != q || y != x ==> EntryOk(s.pt, s.node, s.at, r, y)
  }

  /** No leaf is mapped in the subtree of k. */
  ghost predicate NoLeaf(s: State, k: Key) {
    forall v: nat :: Under(k, Key(k.root, 0, v / 512)) ==> Lookup(s, k.root, v) == NOPTE
  }

  /** pagetable[i] = 0 after the table below has gone. */
  ghost function Erased(s: State, q: Page, x: nat): (t: State) {
    if q in s.pt && x < |s.pt[q]| then s.(pt := s.pt[q := s.pt[q][x := NOPTE]]) else s
  }

  lemma ErasedEntry(pt: Tables, q: Page, x: nat, r: Page, y: nat)
    requires q in pt && |pt[q]| == 512 && x < 512
    ensures Entry(pt[q := pt[q][x := NOPTE]], r, y) == if r == q && y == x then NOPTE else Entry(pt, r, y)
  {}

  lemma ErasedShape(s: State, q: Page, x: nat)
    requires Partition(s.free, s.pt, s.data, s.all) && Indexed(s.pt, s.node, s.at) && q in s.node && x < 512
    ensures q in s.pt && |s.pt[q]| == 512
    ensures var t := Erased(s, q, x); Partition(t.free, t.pt, t.data, t.all) && Indexed(t.pt, t.node, t.at)
  {}

  lemma ErasedLeaf(s: State, q: Page, x: nat, r: Page, v: nat)
    requires Indexed(s.pt, s.node, s.at) && q in s.node && s.node[q].level > 0
    requires q in s.pt && |s.pt[q]| == 512 && x < 512
    ensures Lookup(Erased(s, q, x), r, v) == Lookup(s, r, v)
  {
    var k := Key(r, 0, v / 512);
    if k in s.at { ErasedEntry(s.pt, q, x, s.at[k], v % 512); }
  }

  lemma ErasedKeeps(s: State, q: Page, x: nat)
    requires InvExcept(s, q, x) && q in s.node && s.node[q].level > 0 && x < 512 && Child(s.node[q], x) !in s.at
    ensures q in s.pt && |s.pt[q]| == 512 && Inv(Erased(s, q, x)) && Cut(s, Erased(s, q, x), {})
  {
    var t := Erased(s, q, x);
    hide Entry, EntryOk, Owned, Partition, Indexed, Leaf;
    ErasedShape(s, q, x);
    forall r: Page, v: nat ensures Lookup(t, r, v) == Lookup(s, r, v) { ErasedLeaf(s, q, x, r, v); }
    forall r: Page, y: nat ensures EntryOk(t.pt, t.node, t.at, r, y) {
      if r != q || y != x { assert EntryOk(s.pt, s.node, s.at, r, y); }
      ErasedEntry(s.pt, q, x, r, y);
      ErasedEntryOk(s, t, q, x, r, y);
    }
    assert forall r: Page, v: nat ::
        Leaf(t.pt, t.at, r, v) == Lookup(t, r, v) && Leaf(s.pt, s.at, r, v) == Lookup(s, r, v);
    SameLeavesOwned(s, t);
  }

  lemma ErasedEntryOk(s: State, t: State, q: Page, x: nat, r: Page, y: nat)
    requires t.node == s.node && t.at == s.at && (r != q || y != x ==> EntryOk(s.pt, s.node, s.at, r, y))
    requires Entry(t.pt, r, y) == if r == q && y == x then NOPTE else Entry(s.pt, r, y)
    requires q in s.node && s.node[q].level > 0 && Child(s.node[q], x) !in s.at
    ensures EntryOk(t.pt, t.node, t.at, r, y)
  { hide Entry; }

  /** kfree of a table page. */
  ghost function Removed(s: State, q: Page): (t: State) {
    if q !in s.node then s
    else s.(free := [q] + s.free, pt := s.pt - {q}, node := s.node - {q}, at := s.at - {s.node[q]})
  }

  ghost function ParentPage(s: State, k: Key): (p: Page) {
    var pk := Key(k.root, k.level + 1, k.prefix / 512);
    if k.level < 2 && pk in s.at then s.at[pk] else 0
  }

  /** The table has no tables below it and no leaf in it. */
  ghost predicate Bare(s: State, q: Page) {
    && q in s.node && (forall c <- s.at :: !(Under(s.node[q], c) && c != s.node[q]))
    && NoLeaf(s, s.node[q])
  }

  lemma RemovedLookup(s: State, q: Page, r: Page, v: nat)
    requires Inv(s) && Bare(s, q)
    ensures Lookup(Removed(s, q), r, v) == Lookup(s, r, v)
  {
    hide Owned, EntryOk, Partition;
    var k := Key(r, 0, v / 512);
    if k in s.at && s.at[k] == q { assert Under(s.node[q], k); }
  }

  lemma RemovedEntryOk(s: State, q: Page, r: Page, y: nat)
    requires Indexed(s.pt, s.node, s.at) && q in s.node && EntryOk(s.pt, s.node, s.at, r, y)
    requires r != ParentPage(s, s.node[q]) || y != s.node[q].prefix % 512
    ensures var t := Removed(s, q); EntryOk(t.pt, t.node, t.at, r, y)
  {
    var k := s.node[q];
    if r in s.node && r != q && y < 512 && s.node[r].level > 0 && Child(s.node[r], y) == k {
      ChildKey(s.node[r], y, s.node[r], y);
    }
  }

  lemma RemovedIndexed(s: State, q: Page)
    requires Indexed(s.pt, s.node, s.at) && Bare(s, q)
    ensures var t := Removed(s, q); Indexed(t.pt, t.node, t.at)
  {
    hide Lookup;
    var t, k := Removed(s, q), s.node[q];
    forall c <- t.at | c.level < 2 ensures Key(c.root, c.level + 1, c.prefix / 512) in t.at {
      assert Key(c.root, c.level + 1, c.prefix / 512) == k ==> Under(k, c);
    }
  }

  lemma RemovedPages(s: State, q: Page)
    requires Partition(s.free, s.pt, s.data, s.all) && Indexed(s.pt, s.node, s.at) && q in s.node
    ensures var t := Removed(s, q); Partition(t.free, t.pt, t.data, t.all)
  {}

  lemma RemovedCut(s: State, q: Page)
    requires Indexed(s.pt, s.node, s.at) && q in s.node
    requires forall r: Page, v: nat :: Lookup(Removed(s, q), r, v) == Lookup(s, r, v)
    ensures Cut(s, Removed(s, q), {s.node[q]})
  { hide Lookup; }

  lemma RemovedKeeps(s: State, q: Page)
    requires Inv(s) && Bare(s, q)
    ensures var t, k := Removed(s, q), s.node[q];
      InvExcept(t, ParentPage(s, k), k.prefix % 512) && Cut(s, t, {k})
  {
    hide Entry, EntryOk, Leaf, Owned, Partition, Indexed, Cut, ParentPage;
    var t, k := Removed(s, q), s.node[q];
    forall r: Page, v: nat ensures Lookup(t, r, v) == Lookup(s, r, v) { RemovedLookup(s, q, r, v); }
    forall r: Page, y: nat | r != ParentPage(s, k) || y != k.prefix % 512 ensures EntryOk(t.pt, t.node, t.at, r, y) {
      assert EntryOk(s.pt, s.node, s.at, r, y);
      RemovedEntryOk(s, q, r, y);
    }
    RemovedIndexed(s, q);
    RemovedPages(s, q);
    RemovedCut(s, q);
    assert forall r: Page, v: nat ::
        Leaf(t.pt, t.at, r, v) == Lookup(t, r, v) && Leaf(s.pt, s.at, r, v) == Lookup(s, r, v);
    SameLeavesOwned(s, t);
  }

  /** A table under c exists only if c does. */
  lemma {:induction false} UnderExists(pt: Tables, node: map<Page, Key>, at: Index, c: Key, d: Key)
    requires Indexed(pt, node, at) && Under(c, d) && d in at
    ensures c in at
    decreases 2 - d.level
  {
    if d != c {
      var e := Key(d.root, d.level + 1, d.prefix / 512);
      assert e in at && Under(c, e);
      UnderExists(pt, node, at, c, e);
    }
  }

  /** Entry i leads nowhere: nothing more lies behind the first i + 1 entries than behind the first i. */
  lemma BehindSkip(s: State, t: State, k: Key, i: nat)
    requires Indexed(t.pt, t.node, t.at) && k.level <= 2 && i < 512 && t.at == s.at - Behind(s.at, k, i)
    requires k.level > 0 ==> Child(k, i) !in t.at
    ensures Behind(s.at, k, i + 1) == Behind(s.at, k, i)
  {
    forall c | c in Behind(s.at, k, i + 1) ensures c in Behind(s.at, k, i) {
      UnderVia(k, c, i);
      if c !in Behind(s.at, k, i) { UnderExists(t.pt, t.node, t.at, Child(k, i), c); }
    }
  }

  lemma BehindNext(s: State, t: State, k: Key, i: nat)
    requires 0 < k.level <= 2 && i < 512 && t.at == s.at - Behind(s.at, k, i)
    ensures Behind(s.at, k, i + 1) == Behind(s.at, k, i) + Subtree(t.at, Child(k, i))
  {
    forall c ensures c in Behind(s.at, k, i + 1) <==> c in Behind(s.at, k, i) || c in Subtree(t.at, Child(k, i)) {
      UnderVia(k, c, i);
    }
  }

  /** Behind all 512 entries lies everything in the subtree but its root. */
  lemma BehindAll(s: State, k: Key)
    requires k in s.at && k.level <= 2
    ensures Subtree(s.at, k) == Behind(s.at, k, 512) + {k}
  {
    forall c ensures c in Subtree(s.at, k) <==> c in Behind(s.at, k, 512) || c == k {}
  }

  lemma NoLeafBelow(s: State, k: Key, x: nat)
    requires NoLeaf(s, k) && 0 < k.level <= 2 && x < 512
    ensures NoLeaf(s, Child(k, x))
  {
    hide Lookup;
    forall v: nat | Under(Child(k, x), Key(k.root, 0, v / 512)) ensures Lookup(s, k.root, v) == NOPTE {
      UnderVia(k, Key(k.root, 0, v / 512), x);
    }
  }

  lemma NoLeafAbove(s: State, k: Key, x: nat)
    requires 0 < k.level <= 2 && x < 512 && !NoLeaf(s, Child(k, x))
    ensures !NoLeaf(s, k)
  {
    hide NoLeaf;
    if NoLeaf(s, k) { NoLeafBelow(s, k, x); }
  }

  lemma CutFacts(s: State, t: State, ks: set<Key>, q: Page, k: Key)
    requires Cut(s, t, ks) && q in s.node && s.node[q] == k && k !in ks
    ensures q in t.node && t.node[q] == k && t.at == s.at - ks
    ensures NoLeaf(s, k) ==> NoLeaf(t, k)
  { hide Lookup; }

  lemma CutNone(s: State)
    ensures Cut(s, s, {})
  { hide Lookup; }

  /** What the loop of freewalk reads from entry x. */
  lemma FreewalkEntry(s: State, q: Page, x: nat)
    requires Inv(s) && q in s.node && x < 512
    ensures q in s.pt && |s.pt[q]| == 512 && s.node[q].level <= 2 && s.node[q] in s.at && s.at[s.node[q]] == q
    ensures var k, e := s.node[q], s.pt[q][x];
      && (k.level == 0 ==> e == Lookup(s, k.root, k.prefix * 512 + x))
      && (k.level > 0 ==> (e.perm.v <==> Child(k, x) in s.at))
      && (k.level > 0 && e.perm.v ==>
            !e.perm.Rwx() && e.page == s.at[Child(k, x)] && e.page in s.node && s.node[e.page] == Child(k, x))
  {
    hide Owned;
    assert EntryOk(s.pt, s.node, s.at, q, x);
    var k := s.node[q];
    if k.level == 0 {
      var v := k.prefix * 512 + x;
      assert v / 512 == k.prefix && v % 512 == x;
      assert Lookup(s, k.root, v) == s.pt[q][x];
    }
  }

  /** Which entry of table k leads to page number v. */
  ghost function Toward(k: Key, v: nat): (x: nat)
    requires k.level <= 2
  { if k.level == 0 then v % 512 else Via(k, Key(k.root, 0, v / 512)) }

  /** No leaf is mapped behind the first n entries of k. */
  ghost predicate NoLeafBefore(s: State, k: Key, n: nat)
    requires k.level <= 2
  {
    forall v: nat :: Under(k, Key(k.root, 0, v / 512)) && Toward(k, v) < n ==> Lookup(s, k.root, v) == NOPTE
  }

  lemma NoLeafNone(s: State, k: Key)
    requires k.level <= 2
    ensures NoLeafBefore(s, k, 0) && (NoLeafBefore(s, k, 512) ==> NoLeaf(s, k))
  { hide Lookup; }

  lemma CutLeaf(s: State, t: State, ks: set<Key>, k: Key)
    requires Cut(s, t, ks)
    ensures NoLeaf(s, k) <==> NoLeaf(t, k)
  { hide Lookup, Under; }

  /** An entry that is not valid leads to no leaf. */
  lemma EntryClear(s: State, t: State, ks: set<Key>, q: Page, k: Key, i: nat)
    requires Cut(s, t, ks) && Inv(t) && q in t.node && t.node[q] == k && k.level <= 2 && i < 512
    requires q in t.pt && i < |t.pt[q]| && !t.pt[q][i].perm.v && NoLeafBefore(s, k, i)
    ensures NoLeafBefore(s, k, i + 1)
  {
    FreewalkEntry(t, q, i);
    hide Lookup, Inv, Child;
    forall v: nat | Under(k, Key(k.root, 0, v / 512)) && Toward(k, v) == i ensures Lookup(s, k.root, v) == NOPTE {
      InvalidIsZero(t, k.root, v);
      if k.level == 0 {
        assert v == k.prefix * 512 + i;
      } else {
        UnderVia(k, Key(k.root, 0, v / 512), i);
        InvTree(t);
        if HasTable(t, k.root, v) { UnderExists(t.pt, t.node, t.at, Child(k, i), Key(k.root, 0, v / 512)); }
      }
    }
  }

  /** An entry whose subtree has no leaf leads to none. */
  lemma ChildClear(s: State, k: Key, i: nat)
    requires 0 < k.level <= 2 && i < 512 && NoLeaf(s, Child(k, i)) && NoLeafBefore(s, k, i)
    ensures NoLeafBefore(s, k, i + 1)
  {
    hide Lookup;
    forall v: nat | Under(k, Key(k.root, 0, v / 512)) && Toward(k, v) == i ensures Lookup(s, k.root, v) == NOPTE {
      UnderVia(k, Key(k.root, 0, v / 512), i);
    }
  }

  /** A valid entry of a bottom table is a leaf. */
  lemma LeafFound(s: State, t: State, ks: set<Key>, q: Page, k: Key, i: nat)
    requires Cut(s, t, ks) && Inv(t) && q in t.node && t.node[q] == k && k.level == 0 && i < 512
    requires q in t.pt && i < |t.pt[q]| && t.pt[q][i].perm.v
    ensures t.pt[q][i].perm.Rwx() && !NoLeaf(s, k)
  {
    hide Lookup, Inv, Cut, NoLeaf;
    FreewalkEntry(t, q, i);
    var v := k.prefix * 512 + i;
    LeafHasPerm(t, k.root, v);
    CutLeaf(s, t, ks, k);
    LeafAt(t, k, i);
  }

  lemma LeafAt(s: State, k: Key, i: nat)
    requires k.level == 0 && i < 512 && Lookup(s, k.root, k.prefix * 512 + i).perm.v
    ensures !NoLeaf(s, k)
  {
    hide Lookup;
    var v := k.prefix * 512 + i;
    assert Under(k, Key(k.root, 0, v / 512));
  }

  lemma ChildParent(s: State, k: Key, x: nat, q: Page)
    requires 0 < k.level <= 2 && x < 512 && k in s.at && s.at[k] == q
    ensures Child(k, x).level < 2 && ParentPage(s, Child(k, x)) == q && Child(k, x).prefix % 512 == x
  { ChildKey(k, x, k, x); }

  lemma BehindIsBare(s: State, t: State, q: Page, k: Key)
    requires Cut(s, t, Behind(s.at, k, 512)) && q in t.node && t.node[q] == k && k.level <= 2 && NoLeaf(t, k)
    ensures Bare(t, q)
  { hide Lookup; }

  lemma SameParent(s: State, t: State, k: Key)
    requires t.at == s.at - Behind(s.at, k, 512)
    ensures ParentPage(t, k) == ParentPage(s, k)
  {}

  lemma ChildLevel(k: Key, x: nat)
    ensures k.level > 0 ==> Child(k, x).level < k.level
  {}

  lemma SubtreeHas(at: Index, c: Key)
    requires c in at && c.level <= 2
    ensures c in Subtree(at, c)
  {}

  lemma InvTree(s: State)
    requires Inv(s)
    ensures Indexed(s.pt, s.node, s.at)
  { hide Owned, EntryOk, Partition; }

  // ---------- Freeing an address space ----------

  /** Tree r holds only its own pages below n and the two foreign ones on top. */
  ghost predicate UserTree(s: State, r: Page, n: nat) {
    && IsRoot(s, r) && n <= TRAPFRAME
    && (forall v: nat :: Lookup(s, r, v) != NOPTE ==> v < n || v == TRAMPOLINE || v == TRAPFRAME)
    && (forall v: nat :: (r, v) in s.foreign ==> v == TRAMPOLINE || v == TRAPFRAME)
    && (forall p <- s.user :: s.user[p].0 == r ==> s.user[p].1 < n)
  }

  /** Tree r is gone: its tables and its pages are free again, each of them, and no other page is; every other tree is
      as it was. */
  ghost predicate TreeFreed(s: State, t: State, r: Page) {
    && (forall k <- t.at :: k.root != r) && (forall p <- t.user :: t.user[p].0 != r)
    && (forall p :: p in t.free <==>
          p in s.free || (p in s.node && s.node[p].root == r) || (p in s.user && s.user[p].0 == r))
    && (forall r': Page, v: nat :: r' != r ==> Lookup(t, r', v) == Lookup(s, r', v))
    && (forall p <- t.data :: p in s.data && t.data[p] == s.data[p])
    && (forall p <- s.data :: p in t.data || (p in s.user && s.user[p].0 == r))
  }

  lemma {:induction false} RootCovers(pt: Tables, node: map<Page, Key>, at: Index, c: Key)
    requires Indexed(pt, node, at) && c in at
    ensures c.level <= 2 && Under(Key(c.root, 2, 0), c)
    decreases 2 - c.level
  {
    if c.level < 2 { RootCovers(pt, node, at, Key(c.root, c.level + 1, c.prefix / 512)); }
  }

  /** Unmapping the two foreign pages leaves a tree of its own pages only. */
  lemma ForeignDropped(s: State, t: State, u: State, r: Page, n: nat)
    requires UserTree(s, r, n) && UnmapDone(s, t, r, TRAMPOLINE, 1, false) && UnmapDone(t, u, r, TRAPFRAME, 1, false)
    ensures IsRoot(t, r) && IsRoot(u, r) && u.node == s.node
    ensures forall v: nat :: (r, v) !in u.foreign
    ensures forall v: nat :: v >= n ==> Lookup(u, r, v) == NOPTE
    ensures forall p :: p in u.user <==> p in s.user
    ensures forall p <- u.user :: u.user[p] == s.user[p]
    ensures forall p :: (p in u.free <==> p in s.free) && (p in u.data <==> p in s.data)
    ensures forall p <- u.data :: u.data[p] == s.data[p]
    ensures forall r': Page, v: nat :: r' != r ==> Lookup(u, r', v) == Lookup(s, r', v)
  { hide Lookup; }

  /** uvmunmap of everything below n, then freewalk of the root. */
  /** The whole of a tree lies under its root. */
  lemma TreeUnderRoot(w: State, r: Page)
    requires Indexed(w.pt, w.node, w.at)
    ensures forall k <- w.at :: k in Subtree(w.at, Key(r, 2, 0)) <==> k.root == r
    ensures forall p <- w.node :: w.node[p] in Subtree(w.at, Key(r, 2, 0)) <==> w.node[p].root == r
  {
    hide Under;
    forall k | k in w.at ensures k in Subtree(w.at, Key(r, 2, 0)) <==> k.root == r {
      RootCovers(w.pt, w.node, w.at, k);
      UnderRoot(Key(r, 2, 0), k);
    }
  }

  lemma TreeIsFreed(s: State, w: State, x: State, r: Page, n: nat)
    requires forall p <- s.user :: s.user[p].0 == r ==> s.user[p].1 < n
    requires UnmapDone(s, w, r, 0, n, true) && Indexed(w.pt, w.node, w.at) && Cut(w, x, Subtree(w.at, Key(r, 2, 0)))
    ensures TreeFreed(s, x, r)
  {
    TreeUnderRoot(w, r);
    hide Lookup, Subtree, Indexed;
    forall p ensures Released(s, p, r, 0, n) <==> p in s.user && s.user[p].0 == r {}
  }

  lemma TreeFreedFrom(s: State, u: State, x: State, r: Page)
    requires TreeFreed(u, x, r) && u.node == s.node
    requires forall p :: p in u.user <==> p in s.user
    requires forall p <- u.user :: u.user[p] == s.user[p]
    requires forall p :: (p in u.free <==> p in s.free) && (p in u.data <==> p in s.data)
    requires forall p <- u.data :: u.data[p] == s.data[p]
    requires forall r': Page, v: nat :: r' != r ==> Lookup(u, r', v) == Lookup(s, r', v)
    ensures TreeFreed(s, x, r)
  { hide Lookup; }

  lemma UnderRoot(k: Key, c: Key)
    ensures Under(k, c) ==> c.root == k.root
  {}

  lemma RootGone(s: State)
    requires InvExcept(s, 0, 0)
    ensures Inv(s)
  {
    hide Owned;
    assert 0 !in s.node;
  }

  /** uvmcopy's new pages: the parent's bytes and every permission bit. */
  ghost function CopyPages(s: State, r: Page, n: nat): (ps: seq<NewPage>)
    ensures |ps| == n
  {
    seq(n, v requires 0 <= v =>
      var e := Lookup(s, r, v); NewPage(if e.page in s.data then s.data[e.page] else [], e.perm))
  }

  /** Every page below n is present and the tree's own. */
  ghost predicate Present(s: State, r: Page, n: nat) {
    forall v: nat :: v < n ==> Lookup(s, r, v).perm.v && (r, v) !in s.foreign
  }

  /** The pages below n are the tree's own, not lent by the kernel as the trampoline and the trapframe are. */
  ghost predicate OwnBelow(s: State, r: Page, n: nat) { forall v: nat :: v < n ==> (r, v) !in s.foreign }

  datatype CopyResult = Copied | OutOfMemory | NotPresent

  lemma ParentSame(s: State, t: State, r: Page, c: Page, ps: seq<NewPage>, v: nat)
    requires AllocDone(s, t, c, 0, ps) && r != c
    ensures Lookup(t, r, v) == Lookup(s, r, v) && (IsRoot(s, r) ==> IsRoot(t, r))
  { hide Lookup, PageAdded; }

  /** Tree r maps no page from page number n on. */
  ghost predicate NothingFrom(s: State, r: Page, n: nat) { forall v: nat :: v >= n ==> Lookup(s, r, v) == NOPTE }

  lemma UnmappedAll(s: State, w: State, r: Page, n: nat)
    requires UnmapDone(s, w, r, 0, n, true) && Inv(s)
    ensures (NoLeaf(w, Key(r, 2, 0)) <==> NothingFrom(s, r, n)) && (IsRoot(s, r) ==> IsRoot(w, r))
  {
    hide Lookup, Inv, Under;
    forall v: nat ensures Under(Key(r, 2, 0), Key(r, 0, v / 512)) || Lookup(s, r, v) == NOPTE { OutsideTree(s, r, v); }
  }

  /** Nothing is mapped outside the root's subtree. */
  lemma OutsideTree(s: State, r: Page, v: nat)
    requires Inv(s)
    ensures Under(Key(r, 2, 0), Key(r, 0, v / 512)) || Lookup(s, r, v) == NOPTE
  {
    InvalidIsZero(s, r, v);
    InvTree(s);
    if HasTable(s, r, v) { RootCovers(s.pt, s.node, s.at, Key(r, 0, v / 512)); }
    hide Inv, Lookup;
  }

  lemma RootNode(s: State, r: Page)
    requires IsRoot(s, r) && Indexed(s.pt, s.node, s.at)
    ensures r in s.node && s.node[r] == Key(r, 2, 0) && ParentPage(s, Key(r, 2, 0)) == 0
  {}

  lemma OwnedBelow(s: State, r: Page, n: nat)
    requires Inv(s) && NothingFrom(s, r, n)
    ensures forall p <- s.user :: s.user[p].0 == r ==> s.user[p].1 < n
  {
    hide Leaf, Tree, Partition;
    forall p <- s.user | s.user[p].0 == r ensures s.user[p].1 < n { assert Lookup(s, r, s.user[p].1).perm.v; }
  }

  lemma NoTableNoPage(s: State, r: Page, v: nat)
    requires Inv(s) && Lookup(s, r, v).perm.v
    ensures HasTable(s, r, v)
  {}

  /** What uvmcopy's loop finds in the parent's i-th entry, and that the child's is vacant. */
  ghost predicate CanCopy(s: State, t: State, r: Page, c: Page, i: nat) {
    var e := Lookup(s, r, i);
    && Lookup(t, r, i) == e && e.perm.v && e.perm.Rwx() && e.page in s.data && e.page in t.data
    && t.data[e.page] == s.data[e.page] && |t.data[e.page]| == PGSIZE && IsRoot(t, r) && Lookup(t, c, i) == NOPTE
  }

  /** While the child is being filled, the parent's pages read as they did. */
  lemma CopySource(s: State, t: State, r: Page, c: Page, ps: seq<NewPage>, n: nat)
    requires Inv(s) && AllocDone(s, t, c, 0, ps) && r != c && IsRoot(s, r)
    requires Present(s, r, |ps| + 1) && Vacant(s, c, 0, n) && |ps| < n
    ensures CanCopy(s, t, r, c, |ps|)
  {
    hide Tree, Leaf, PageAdded, Owned;
    OwnPage(s, r, |ps|);
    LeafHasPerm(s, r, |ps|);
    assert InRange(|ps|, 0, n);
  }

  lemma LeafHasPerm(s: State, r: Page, v: nat)
    requires Inv(s) && Lookup(s, r, v).perm.v
    ensures Lookup(s, r, v).perm.Rwx()
  {
    hide Leaf, Tree, Partition;
    assert LeafOk(s.pt, s.at, s.user, s.foreign, r, v);
  }

  // ---------- User memory, byte by byte ----------

  /** The user's own page at page number v, if it has one. */
  ghost predicate OwnsPage(s: State, r: Page, v: nat) {
    var p := Lookup(s, r, v).page;
    Lookup(s, r, v).perm.v && p in s.user && s.user[p] == (r, v) && p in s.data && |s.data[p]| == PGSIZE
  }

  /** The byte at a virtual address, translated address by address; a page not yet allocated reads as zero. */
  ghost function ByteOf(s: State, r: Page, va: nat): (x: byte) {
    if OwnsPage(s, r, va / PGSIZE) then s.data[Lookup(s, r, va / PGSIZE).page][va % PGSIZE] else 0
  }

  /** Mappings have only been added, in tree r. */
  ghost predicate MapsKept(s: State, t: State, r: Page) {
    && t.foreign == s.foreign && (IsRoot(s, r) ==> IsRoot(t, r))
    && (forall r': Page, v: nat :: r' != r || Lookup(s, r', v).perm.v ==> Lookup(t, r', v) == Lookup(s, r', v))
  }

  const NOBYTES: seq<byte> := []

  /** Exactly the bytes from `at` have become w. */
  ghost predicate Poked(s: State, t: State, r: Page, at: nat, w: seq<byte>) {
    && MapsKept(s, t, r)
    && forall r': Page, va: nat :: ByteOf(t, r', va) ==
         if r' == r && at <= va < at + |w| then w[va - at] else ByteOf(s, r', va)
  }

  lemma PokeNone(s: State, r: Page, at: nat)
    ensures Poked(s, s, r, at, [])
  { hide Lookup, ByteOf; }

  lemma PokeJoin(s: State, t: State, u: State, r: Page, at: nat, w: seq<byte>, x: seq<byte>)
    requires Poked(s, t, r, at, w) && Poked(t, u, r, at + |w|, x)
    ensures Poked(s, u, r, at, w + x)
  { hide Lookup, ByteOf; }

  /** A page allocated on demand reads as the zeroes it read as before. */
  lemma PokeAlloc(s: State, t: State, r: Page, v: nat, perm: Perm, ok: bool, at: nat)
    requires Inv(s) && AllocDone(s, t, r, v, if ok then [NewPage(Fill(0), perm)] else []) && Lookup(s, r, v) == NOPTE
    ensures Poked(s, t, r, at, [])
  {
    hide Lookup, Tree, Partition, Owned;
    forall r': Page, v': nat ensures (r' != r || v' != v || !ok) ==> Lookup(t, r', v') == Lookup(s, r', v') {
      assert InRange(v', v, 1) <==> v' == v;
    }
    forall r': Page, va: nat ensures ByteOf(t, r', va) == ByteOf(s, r', va) {
      var v' := va / PGSIZE;
      if r' == r && v' == v && ok {
        assert InRange(v, v, 1);
        assert !OwnsPage(s, r, v);
      } else {
        SameOwn(s, t, r, v, if ok then [NewPage(Fill(0), perm)] else [], r', v');
      }
    }
  }

  lemma SameOwn(s: State, t: State, r: Page, v: nat, ps: seq<NewPage>, r': Page, v': nat)
    requires AllocDone(s, t, r, v, ps) && (forall p <- s.user :: p in s.data) && Lookup(t, r', v') == Lookup(s, r', v')
    requires r' != r || !InRange(v', v, |ps|)
    ensures OwnsPage(t, r', v') == OwnsPage(s, r', v')
    ensures OwnsPage(s, r', v') ==> t.data[Lookup(s, r', v').page] == s.data[Lookup(s, r', v').page]
  { hide Lookup, PageAdded; }

  /** memmove into the user's page. */
  ghost function Stored(s: State, p: Page, f: seq<byte>): (t: State) { s.(data := s.data[p := f]) }

  lemma StoredKeeps(s: State, p: Page, f: seq<byte>)
    requires Inv(s) && p in s.data && |f| == PGSIZE
    ensures Inv(Stored(s, p, f))
  { hide Tree, Owned; }

  function Patch(f: seq<byte>, at: nat, w: seq<byte>): (g: seq<byte>)
    requires at + |w| <= |f|
    ensures |g| == |f| && forall x :: 0 <= x < |f| ==> g[x] == if at <= x < at + |w| then w[x - at] else f[x]
  { f[..at] + w + f[at + |w|..] }

  /** Two different user addresses never share a byte, so a store shows nowhere else: not at another address, not in
      another process. */
  lemma PokeStore(s: State, r: Page, at: nat, w: seq<byte>)
    requires OwnsPage(s, r, at / PGSIZE) && at % PGSIZE + |w| <= PGSIZE
    ensures var p := Lookup(s, r, at / PGSIZE).page;
      Poked(s, Stored(s, p, Patch(s.data[p], at % PGSIZE, w)), r, at, w)
  {
    hide Lookup;
    var p := Lookup(s, r, at / PGSIZE).page;
    var t := Stored(s, p, Patch(s.data[p], at % PGSIZE, w));
    forall r': Page, v: nat ensures Lookup(t, r', v) == Lookup(s, r', v) { SameTables(t, s, r', v); }
    forall r': Page, va: nat
      ensures ByteOf(t, r', va) == if r' == r && at <= va < at + |w| then w[va - at] else ByteOf(s, r', va)
    {
      StoreByte(s, t, r, at, w, r', va);
    }
  }

  lemma StoreByte(s: State, t: State, r: Page, at: nat, w: seq<byte>, r': Page, va: nat)
    requires OwnsPage(s, r, at / PGSIZE) && at % PGSIZE + |w| <= PGSIZE
    requires var p := Lookup(s, r, at / PGSIZE).page; t == Stored(s, p, Patch(s.data[p], at % PGSIZE, w))
    requires forall r': Page, v: nat :: Lookup(t, r', v) == Lookup(s, r', v)
    ensures ByteOf(t, r', va) == if r' == r && at <= va < at + |w| then w[va - at] else ByteOf(s, r', va)
  {
    hide Lookup;
    var p := Lookup(s, r, at / PGSIZE).page;
    assert at <= va < at + |w| ==> va / PGSIZE == at / PGSIZE && va % PGSIZE == at % PGSIZE + (va - at);
    assert va / PGSIZE == at / PGSIZE && !(at <= va < at + |w|) ==>
      !(at % PGSIZE <= va % PGSIZE < at % PGSIZE + |w|);
    if OwnsPage(s, r', va / PGSIZE) && Lookup(s, r', va / PGSIZE).page == p {
      assert r' == r && va / PGSIZE == at / PGSIZE;
    }
  }

  /** Foreign pages of tree r are closed to the user. */
  ghost predicate ForeignClosed(s: State, r: Page) {
    forall v: nat :: (r, v) in s.foreign ==> Lookup(s, r, v).perm.v && !Lookup(s, r, v).perm.u
  }

  /** A page the user may touch is the user's own. */
  lemma UserOwns(s: State, r: Page, v: nat)
    requires Inv(s) && ForeignClosed(s, r) && Lookup(s, r, v).perm.v && Lookup(s, r, v).perm.u
    ensures OwnsPage(s, r, v) && Lookup(s, r, v).page != 0
  {
    hide Leaf, Tree, Owned;
    OwnPage(s, r, v);
  }

  ghost predicate UserPage(s: State, r: Page, va: nat) {
    va < MAXVA && Lookup(s, r, va / PGSIZE).perm.v && Lookup(s, r, va / PGSIZE).perm.u
  }

  /** Every address of the range is one the user may read. */
  ghost predicate UserRange(s: State, r: Page, va: nat, n: nat) {
    forall x: nat :: va <= x < va + n ==> UserPage(s, r, x)
  }

  lemma NoRange(s: State, r: Page, va: nat)
    ensures UserRange(s, r, va, 0)
  {}

  /** The user's pages stay the user's. */
  lemma UserRangeKept(s: State, t: State, r: Page, at: nat, w: seq<byte>, va: nat, n: nat)
    requires Poked(s, t, r, at, w) && UserRange(s, r, va, n)
    ensures UserRange(t, r, va, n)
  {
    hide Lookup, ByteOf;
    forall x: nat | va <= x < va + n ensures UserPage(t, r, x) { assert UserPage(s, r, x); }
  }

  /** One more page's worth. */
  lemma UserRangeMore(s: State, r: Page, va: nat, i: nat, n: nat)
    requires UserRange(s, r, va, i) && (va + i) % PGSIZE + n <= PGSIZE && UserPage(s, r, (va + i) / PGSIZE * PGSIZE)
    ensures UserRange(s, r, va, i + n)
  {
    hide Lookup;
    var a := va + i;
    forall x: nat | va <= x < va + i + n ensures UserPage(s, r, x) {
      if x >= a {
        assert x / PGSIZE == a / PGSIZE == a / PGSIZE * PGSIZE / PGSIZE;
      } else {
        assert va <= x < va + i;
      }
    }
  }

  /** A readable address is not denied to copyin. */
  lemma UserNotDenied(s: State, r: Page, va: nat, psz: nat)
    requires UserPage(s, r, va)
    ensures !Denied(s, r, va, psz, false)
  { hide Lookup; }

  lemma RangeNotDenied(s: State, r: Page, va: nat, n: nat, i: nat, psz: nat)
    requires UserRange(s, r, va, n) && i < n
    ensures !Denied(s, r, va + i, psz, false)
  {
    hide Lookup, Denied;
    assert UserPage(s, r, va + i);
    UserNotDenied(s, r, va + i, psz);
  }

  /** Why a user address cannot be copied to or from: out of range, mapped without the permission, or unmapped and
      either past the process's size or with no memory left to map it. */
  ghost predicate Denied(s: State, r: Page, va: nat, psz: nat, write: bool) {
    var e := Lookup(s, r, va / PGSIZE);
    || va / PGSIZE * PGSIZE >= MAXVA
    || (if e.perm.v then !e.perm.u || (write && !e.perm.w) else va / PGSIZE * PGSIZE >= psz || |s.free| <= 1)
  }

  /** PTE_W | PTE_U | PTE_R | PTE_A | PTE_D | PTE_THEAD_MAEE */
  const LAZY := Perm(false, true, true, false, true, 0x7000_0000_0000_00C0)

  lemma AllocOwns(s: State, t: State, r: Page, v: nat, n: NewPage)
    requires AllocDone(s, t, r, v, [n]) && |n.bytes| == PGSIZE
    ensures Lookup(t, r, v) == NewPte(Lookup(t, r, v).page, n.perm) && OwnsPage(t, r, v)
  {
    hide Lookup;
    assert InRange(v, v, 1);
  }

  ghost function BytesOf(s: State, r: Page, va: nat, n: nat): (w: seq<byte>)
    ensures |w| == n
  { seq<byte>(n, k requires 0 <= k => ByteOf(s, r, va + k)) }

  /** copyin undoes copyout: the range reads back as what was written. */
  lemma ReadsBack(s: State, t: State, r: Page, at: nat, w: seq<byte>)
    requires Poked(s, t, r, at, w)
    ensures BytesOf(t, r, at, |w|) == w
  {
    hide ByteOf, Lookup;
    var b := BytesOf(t, r, at, |w|);
    forall k | 0 <= k < |w| ensures b[k] == w[k] { assert ByteOf(t, r, at + k) == w[at + k - at]; }
  }

  lemma BytesSame(s: State, t: State, r: Page, at: nat, va: nat, n: nat)
    requires Poked(s, t, r, at, [])
    ensures BytesOf(t, r, va, n) == BytesOf(s, r, va, n)
  { hide ByteOf, Lookup; }

  /** One page's worth of reading. */
  lemma ReadPage(s: State, r: Page, va: nat, tot: nat, n: nat)
    requires OwnsPage(s, r, (va + tot) / PGSIZE) && (va + tot) % PGSIZE + n <= PGSIZE
    ensures var a := va + tot; var f := s.data[Lookup(s, r, a / PGSIZE).page];
      BytesOf(s, r, va, tot + n) == BytesOf(s, r, va, tot) + f[a % PGSIZE..a % PGSIZE + n]
  {
    hide Lookup;
    var a := va + tot;
    var f := s.data[Lookup(s, r, a / PGSIZE).page];
    var whole, piece := BytesOf(s, r, va, tot + n), f[a % PGSIZE..a % PGSIZE + n];
    forall k | tot <= k < tot + n ensures whole[k] == piece[k - tot] {
      assert (va + k) / PGSIZE == a / PGSIZE && (va + k) % PGSIZE == a % PGSIZE + (k - tot);
      assert whole[k] == ByteOf(s, r, va + k) == f[a % PGSIZE + (k - tot)];
    }
  }

  lemma OwnsFacts(s: State, r: Page, v: nat)
    requires OwnsPage(s, r, v)
    ensures var p := Lookup(s, r, v).page; p in s.data && |s.data[p]| == PGSIZE
  { hide Lookup; }

  lemma MapOneLookup(s: State, t: State, r: Page, v: nat, p: Page, perm: Perm)
    requires MapDone(s, t, r, v, 1, p, perm, true)
    ensures Lookup(t, r, v) == NewPte(p, perm)
  {
    hide Lookup;
    assert InRange(v, v, 1);
  }

  lemma PokedFacts(s: State, t: State, r: Page, at: nat, w: seq<byte>)
    requires Poked(s, t, r, at, w)
    ensures IsRoot(s, r) ==> IsRoot(t, r)
    ensures ForeignClosed(s, r) ==> ForeignClosed(t, r)
  {
    hide Lookup, ByteOf;
  }

  lemma NulByte(s: State, r: Page, va: nat, m: nat)
    requires OwnsPage(s, r, va / PGSIZE) && va % PGSIZE + m < PGSIZE
    ensures (va + m) / PGSIZE == va / PGSIZE
    ensures ByteOf(s, r, va + m) == s.data[Lookup(s, r, va / PGSIZE).page][va % PGSIZE + m]
  { hide Lookup; }

  /** What fork's copy means: the child reads the parent's bytes, under the same bits, from a frame that was free. */
  lemma ForkCopies(s: State, t: State, r: Page, c: Page, n: nat, va: nat)
    requires Inv(s) && Inv(t) && r != c && Present(s, r, n) && AllocDone(s, t, c, 0, CopyPages(s, r, n)) &&
        va / PGSIZE < n
    ensures ByteOf(t, c, va) == ByteOf(s, r, va) == ByteOf(t, r, va)
    ensures var v := va / PGSIZE; Lookup(t, c, v).perm == Lookup(s, r, v).perm && Lookup(t, c, v).page in s.free
  {
    hide Tree, Leaf, Partition, Owned, Lookup;
    var v := va / PGSIZE;
    assert InRange(v, 0, n);
    OwnPage(s, r, v);
    ParentSame(s, t, r, c, CopyPages(s, r, n), v);
  }

  /** After fork neither process sees the other's writes: a copyout to one leaves the other reading what fork left. */
  lemma ForkIsolated(s: State, t: State, u: State, r: Page, c: Page, n: nat, at: nat, w: seq<byte>, va: nat)
    requires Inv(s) && Inv(t) && r != c && Present(s, r, n) && AllocDone(s, t, c, 0, CopyPages(s, r, n)) &&
        va / PGSIZE < n
    requires Poked(t, u, r, at, w) || Poked(t, u, c, at, w)
    ensures Poked(t, u, r, at, w) ==> ByteOf(u, c, va) == ByteOf(s, r, va)
    ensures Poked(t, u, c, at, w) ==> ByteOf(u, r, va) == ByteOf(s, r, va)
  {
    hide Inv, Lookup, ByteOf, AllocDone;
    ForkCopies(s, t, r, c, n, va);
  }

  /** A page that is no table is the root of no key. */
  lemma {:induction false} NoKeysUnder(s: State, k: Key)
    requires Indexed(s.pt, s.node, s.at) && k in s.at
    ensures k.root in s.pt
    decreases 2 - k.level
  {
    if k.level < 2 { NoKeysUnder(s, Key(k.root, k.level + 1, k.prefix / 512)); }
  }

  ghost function Create(s: State, r: Page): (t: State) {
    s.(free := if s.free == [] then [] else s.free[1..], pt := s.pt[r := Zeros()],
       node := s.node[r := Key(r, 2, 0)], at := s.at[Key(r, 2, 0) := r])
  }

  lemma CreatedKeeps(s: State, r: Page)
    requires Inv(s) && s.free != [] && r == s.free[0]
    ensures Inv(Create(s, r)) && Created(s, Create(s, r), r) && r !in s.data
  {
    hide Tree, Leaf, EntryOk;
    var t := Create(s, r);
    FreshRoot(s, r);
    assert r !in s.pt;
    CreatedTree(s, r);
    forall r': Page, v: nat
      ensures Lookup(t, r', v) == Lookup(s, r', v) && Leaf(t.pt, t.at, r', v) == Leaf(s.pt, s.at, r', v)
      ensures LeafOk(t.pt, t.at, t.user, t.foreign, r', v)
    {
      CreatedLookup(s, r, r', v);
      assert LeafOk(s.pt, s.at, s.user, s.foreign, r', v);
    }
    forall v: nat ensures Lookup(t, r, v) == NOPTE { CreatedLookup(s, r, r, v); }
    CreatedPartition(s, r);
    CreatedUnowned(s, r);
  }

  lemma CreatedPartition(s: State, r: Page)
    requires Inv(s) && s.free != [] && r == s.free[0]
    ensures var t := Create(s, r); Partition(t.free, t.pt, t.data, t.all) && r !in s.data
  { hide Tree, Owned; }

  /** No mapping of r, owned or foreign, is on record. */
  lemma CreatedUnowned(s: State, r: Page)
    requires Inv(s) && forall k <- s.at :: k.root != r
    ensures (forall v: nat :: (r, v) !in s.foreign) && forall p <- s.user :: s.user[p].0 != r
  {
    hide Tree, Partition;
    forall v: nat ensures Leaf(s.pt, s.at, r, v) == NOPTE {}
  }

  lemma FreshRoot(s: State, r: Page)
    requires Inv(s) && s.free != [] && r == s.free[0]
    ensures forall k <- s.at :: k.root != r
  {
    hide Owned, EntryOk;
    forall k | k in s.at ensures k.root != r { NoKeysUnder(s, k); }
  }

  lemma CreatedLookup(s: State, r: Page, r': Page, v: nat)
    requires Inv(s) && r !in s.pt && forall k <- s.at :: k.root != r
    ensures Lookup(Create(s, r), r', v) == Lookup(s, r', v) && (r' == r ==> Lookup(s, r', v) == NOPTE)
  { hide Owned, Partition, EntryOk; }

  lemma CreatedIndexed(s: State, r: Page)
    requires Indexed(s.pt, s.node, s.at) && r !in s.pt && forall k <- s.at :: k.root != r
    ensures Indexed(Create(s, r).pt, Create(s, r).node, Create(s, r).at)
  {}

  lemma CreatedEntryOk(s: State, r: Page, q: Page, x: nat)
    requires EntryOk(s.pt, s.node, s.at, q, x) && Indexed(s.pt, s.node, s.at) && r !in s.pt
    requires forall k <- s.at :: k.root != r
    ensures EntryOk(Create(s, r).pt, Create(s, r).node, Create(s, r).at, q, x)
  {
    if q in s.node { assert q != r && s.node[q].root != r && Child(s.node[q], x).root != r; }
  }

  lemma CreatedTree(s: State, r: Page)
    requires Inv(s) && s.free != [] && r == s.free[0] && forall k <- s.at :: k.root != r
    ensures Tree(Create(s, r).pt, Create(s, r).node, Create(s, r).at)
  {
    var t := Create(s, r);
    assert r !in s.pt;
    hide Partition, Owned, Indexed, EntryOk, Create;
    CreatedIndexed(s, r);
    forall q: Page, x: nat ensures EntryOk(t.pt, t.node, t.at, q, x) {
      assert EntryOk(s.pt, s.node, s.at, q, x);
      CreatedEntryOk(s, r, q, x);
    }
  }

  /** PTE_R | PTE_X | PTE_A | PTE_THEAD_MAEE and PTE_R | PTE_W | PTE_A | PTE_D | PTE_THEAD_MAEE */
  const TEXT := Perm(false, true, false, true, false, 0x7000_0000_0000_0040)
  const FRAME := Perm(false, true, true, false, false, 0x7000_0000_0000_00C0)

  /** Since s, tree r has appeared with exactly the foreign mappings `pages`; nothing else has changed. */
  ghost predicate NewTree(s: State, t: State, r: Page, pages: map<nat, Pte>) {
    && t.data == s.data && t.all == s.all && t.user == s.user && IsRoot(t, r) && r !in s.pt
    && (forall p <- t.free :: p in s.free)
    && (forall k <- s.at :: k in t.at && t.at[k] == s.at[k])
    && (forall k <- t.at :: k in s.at || k.root == r)
    && (forall v: nat :: Lookup(t, r, v) == if v in pages then pages[v] else NOPTE)
    && (forall r': Page, v: nat :: r' != r ==> Lookup(t, r', v) == Lookup(s, r', v))
    && (forall f :: f in t.foreign <==> f in s.foreign || (f.0 == r && f.1 in pages))
    && (forall v: nat :: (r, v) !in s.foreign) && (forall p <- s.user :: s.user[p].0 != r)
  }

  lemma NewTreeCreated(s: State, t: State, r: Page)
    requires Inv(s) && Created(s, t, r)
    ensures NewTree(s, t, r, map[])
  {
    hide Lookup, Tree, Owned;
    FreshRoot(s, r);
  }

  lemma NewTreeMapped(s: State, t: State, u: State, r: Page, pages: map<nat, Pte>, v: nat, pa: Page, perm: Perm, m: nat)
    requires NewTree(s, t, r, pages) && MapDone(t, u, r, v, m, pa, perm, false) && m <= 1
    ensures NewTree(s, u, r, if m == 1 then pages[v := NewPte(pa, perm)] else pages)
  {
    hide Lookup;
    forall x: nat ensures InRange(x, v, m) <==> m == 1 && x == v {}
  }

  lemma NewTreeUnmapped(s: State, t: State, u: State, r: Page, pages: map<nat, Pte>, v: nat)
    requires NewTree(s, t, r, pages) && UnmapDone(t, u, r, v, 1, false) && Inv(t) && Inv(u)
    ensures NewTree(s, u, r, pages - {v})
  {
    hide Lookup, Inv;
    forall x: nat ensures InRange(x, v, 1) <==> x == v {}
    assert u.user == t.user && u.data == t.data;
  }

  lemma NewTreeFacts(s: State, t: State, r: Page, pages: map<nat, Pte>)
    requires NewTree(s, t, r, pages)
    ensures t.data == s.data && t.user == s.user && IsRoot(t, r) && r !in s.pt
    ensures forall v: nat :: Lookup(t, r, v) == if v in pages then pages[v] else NOPTE
    ensures forall v: nat :: (r, v) in t.foreign <==> v in pages
    ensures forall r': Page, v: nat :: r' != r ==> Lookup(t, r', v) == Lookup(s, r', v)
    ensures forall p <- t.user :: t.user[p].0 != r
  { hide Lookup; }

  lemma NewTreePage(s: State, t: State, r: Page, p: Page)
    requires Inv(s) && Inv(t) && NewTree(s, t, r, map[]) && forall k <- s.at :: k.root != r
    ensures p in s.free <==> p in t.free || (p in t.node && t.node[p].root == r)
  {
    hide Lookup, Owned, EntryOk;
    if p in t.node && t.node[p] in s.at { assert s.at[t.node[p]] == p; }
    if p in s.node { assert t.at[s.node[p]] == p; }
  }

  lemma NoKeysNoPage(s: State, r: Page, v: nat)
    requires forall k <- s.at :: k.root != r
    ensures Lookup(s, r, v) == NOPTE
  {}

  lemma NewTreeFreed(s: State, t: State, x: State, r: Page)
    requires Inv(s) && Inv(t) && NewTree(s, t, r, map[]) && TreeFreed(t, x, r)
    ensures x.data == s.data && forall p :: p in x.free <==> p in s.free
    ensures forall r': Page, v: nat :: Lookup(x, r', v) == Lookup(s, r', v)
  {
    hide Lookup, Inv;
    forall k | k in s.at ensures k.root != r { InvTree(s); NoKeysUnder(s, k); }
    forall p: Page ensures p in x.free <==> p in s.free { NewTreePage(s, t, r, p); }
    forall r': Page, v: nat ensures Lookup(x, r', v) == Lookup(s, r', v) {
      if r' == r { NoKeysNoPage(s, r, v); NoKeysNoPage(x, r, v); }
    }
  }

  datatype LoadResult = Loaded | Short | NoSuchAddress

  ghost function Piece(f: seq<byte>, off: nat, n: nat): (p: seq<byte>) {
    if off + n <= |f| then f[off..off + n] else []
  }

  lemma PieceJoin(f: seq<byte>, off: nat, i: nat, m: nat)
    requires off + i + m <= |f| || i == m == 0
    ensures i == m == 0 ==> Piece(f, off, 0) == NOBYTES
    ensures i > 0 || m > 0 ==>
        Piece(f, off, i + m) == Piece(f, off, i) + f[off + i..off + i + m] && |Piece(f, off, i)| == i
  {}

  lemma StoredUsers(s: State, t: State)
    requires t == s.(data := t.data)
    ensures forall r: Page, a: nat :: UserPage(s, r, a) <==> UserPage(t, r, a)
  {}

  class Vm {
    const end: Page       // the first page after the kernel
    const phystop: Page   // the page after the last
    var free: seq<Page>
    var pt: Tables
    var data: map<Page, seq<byte>>
    ghost var all: set<Page>
    ghost var node: map<Page, Key>
    ghost var at: Index
    ghost var user: map<Page, (Page, nat)>
    ghost var foreign: set<(Page, nat)>

    ghost function Now(): (s: State)
      reads this
    { State(free, pt, data, all, node, at, user, foreign) }

    ghost predicate Valid()
      reads this
    { Inv(Now()) && InBounds() }

    /** The allocator's pages are those kfree accepts. */
    ghost predicate InBounds()
      reads this
    { forall p :: p in all <==> end <= p < phystop }

    /** kinit: freerange hands the pages first .. last - 1 to the allocator, one kfree at a time. */
    constructor (first: Page, last: Page)
      requires 0 < first <= last
      ensures Valid() && |free| == last - first && pt == map[] && data == map[]
      ensures end == first && phystop == last && forall p :: p in all <==> first <= p < last
    {
      end, phystop := first, last;
      free, pt, data := [], map[], map[];
      all, node, at, user, foreign := {}, map[], map[], map[], {};
      new;
      var p := first;
      while p < last
        invariant first <= p <= last && pt == map[] && data == map[] && node == map[] && at == map[] &&
            user == map[] && foreign == {}
        invariant |free| == p - first && Partition(free, pt, data, all)
        invariant forall q :: q in all <==> first <= q < p
      {
        free, all := [p] + free, all + {p};
        p := p + 1;
      }
    }

    /** uvmcreate: an empty tree on a page of its own; 0 when there is no page. */
    method Uvmcreate() returns (r: Page)
      requires Valid()
      modifies this
      ensures Valid() && (r == 0 <==> old(free) == [])
      ensures r == 0 ==> Now() == old(Now())
      ensures r != 0 ==> Created(old(Now()), Now(), r) && |old(free)| == |free| + 1
    {
      hide Inv, Created;
      ghost var s := Now();
      r := Kalloc();
      if r == 0 { return; }
      CreatedKeeps(s, r);
      pt, data := pt[r := Zeros()], data - {r};
      node, at := node[r := Key(r, 2, 0)], at[Key(r, 2, 0) := r];
      assert data == s.data;
      assert Now() == Create(s, r);
    }

    /** kalloc; 0 when there is no page. */
    method Kalloc() returns (p: Page)
      requires Valid()
      modifies this`free, this`data
      ensures Valid() && (p == 0 <==> old(free) == [])
      ensures p == 0 ==> Now() == old(Now())
      ensures p != 0 ==> Now() == Taken(old(Now())) && p == old(free)[0] && p in all && p in data && p !in user
      ensures p != 0 ==> p !in old(data) && p !in old(pt)
    {
      if free == [] { return 0; }
      p := free[0];
      TakenKeeps(Now());
      FreeNotNull(Now());
      hide Inv;
      free := free[1..];
      data := data[p := Fill(5)];
    }

    /** kfree.  False is the panic on an address that is not the allocator's; of its own pages it takes any that is
        handed out and that nobody maps. */
    method Kfree(p: Page) returns (ok: bool)
      requires Valid() && (end <= p < phystop ==> p in data && p !in user)
      modifies this`free, this`data
      ensures Valid() && (ok <==> end <= p < phystop)
      ensures Now() == if ok then Given(old(Now()), p) else old(Now())
    {
      hide Inv;
      if p < end || p >= phystop { return false; }
      GivenKeeps(Now(), p);
      free := [p] + free;
      data := data - {p};
      return true;
    }

    /** walk.  The entry found is pt[q][x]. */
    method Walk(r: Page, va: nat, alloc: bool) returns (w: Walked, q: Page, x: nat)
      requires Valid() && IsRoot(Now(), r)
      modifies this
      ensures Valid() && Grown(old(Now()), Now(), r) && (!alloc ==> Now() == old(Now()))
      ensures w.TooHigh? <==> va >= MAXVA
      ensures w.TooHigh? ==> Now() == old(Now())
      ensures w.Found? ==>
          HasTable(Now(), r, va / PGSIZE) && q == at[Key(r, 0, va / PGSIZE / 512)] && x == va / PGSIZE % 512
      ensures w.Missing? ==> !HasTable(Now(), r, va / PGSIZE) && (alloc ==> free == [] && |old(free)| <= 1)
      ensures |old(free)| <= |free| + 2
    {
      hide Inv, Attached, Grown;
      q, x := r, 0;
      GrownRefl(Now(), r);
      if va >= MAXVA { return TooHigh, q, x; }
      var level := 2;
      assert Reached(Now(), r, 2, va, r);
      while level > 0
        invariant 0 <= level <= 2 && Valid() && Grown(old(Now()), Now(), r) && (!alloc ==> Now() == old(Now()))
        invariant Reached(Now(), r, level, va, q) && |old(free)| <= |free| + 2 - level
      {
        ghost var s := Now();
        WalkStep(s, r, level, va, q);
        x := Px(level, va);
        var e := pt[q][x];
        if e.perm.v {
          q := e.page;
        } else {
          if !alloc { WalkMissing(s, r, level, va, q); return Missing, q, x; }
          var p := Kalloc();
          if p == 0 { WalkMissing(s, r, level, va, q); return Missing, q, x; }
          WalkAlloc(s, r, level, va, q);
          AttachTable(q, x, p, s);
          GrownTrans(old(Now()), s, Now(), r);
          q := p;
        }
        level := level - 1;
      }
      x := Px(0, va);
      return Found, q, x;
    }

    /** memset(p, 0, PGSIZE); *pte = PA2PTE(p) | PTE_V */
    method AttachTable(q: Page, x: nat, p: Page, ghost s: State)
      requires s.free != [] && Now() == Taken(s) && p == s.free[0] && q in s.pt && x < |s.pt[q]| && q in s.node &&
          p !in s.pt
      modifies this`pt, this`data, this`node, this`at
      ensures q in s.pt && x < |s.pt[q]| && q in s.node && Now() == Attached(Taken(s), q, x, p) && free == s.free[1..]
    {
      pt := pt[q := pt[q][x := NewPte(p, NOPERM)]][p := Zeros()];
      data := data - {p};
      at := at[Child(node[q], x) := p];
      node := node[p := Child(node[q], x)];
    }

    /** The loop of mappages, over page numbers. */
    method MapRange(r: Page, v0: nat, n: nat, pa: Page, perm: Perm, ghost owned: bool)
      returns (o: Outcome, ghost m: nat)
      requires Valid() && MayMap(Now(), r, v0, n, pa, perm, owned)
      modifies this
      ensures Valid() && MapDone(old(Now()), Now(), r, v0, m, pa, perm, owned) && m <= n && !o.Misaligned?
      ensures (o.NoSize? <==> n == 0) && (o.Done? <==> n > 0 && m == n)
      ensures (o.OutOfRange? <==> m < n && v0 + m >= NVPN) && (m == 0 || v0 + m <= NVPN)
      ensures NoneValid(old(Now()), r, v0, m) && (o.NoMemory? ==> !Lookup(old(Now()), r, v0 + m).perm.v)
      ensures o.NoMemory? ==> free == [] && |old(free)| <= 2 * m + 1
      ensures |old(free)| <= |free| + 2 * (m + 1) && (o.Done? ==> |old(free)| <= |free| + 2 * m)
      ensures o.Remap? ==> Lookup(old(Now()), r, v0 + m).perm.v
    {
      hide Inv, Lookup, MapDone, Grown, NoneValid;
      ghost var s := Now();
      m := 0;
      MapNone(s, r, v0, pa, perm, owned);
      NoneValidMore(s, r, v0, 0);
      if n == 0 { return NoSize, m; }
      var a, p := v0, pa;
      while true
        invariant 0 <= m < n && a == v0 + m && p == pa + m && Valid()
        invariant MapDone(s, Now(), r, v0, m, pa, perm, owned) && |old(free)| <= |free| + 2 * m
        invariant NoneValid(s, r, v0, m) && (m == 0 || a <= NVPN)
        decreases n - m
      {
        ghost var t := Now();
        RootKept(s, t, r, v0, m, pa, perm, owned);
        var w, q, x := Walk(r, a * PGSIZE, true);
        MapGrown(s, t, Now(), r, v0, m, pa, perm, owned);
        if w.TooHigh? { return OutOfRange, m; }
        ghost var u := Now();
        OldLookup(s, u, r, v0, m, pa, perm, owned);
        InvalidIsZero(u, r, a);
        if w.Missing? { return NoMemory, m; }
        EntryIsLookup(u, r, a);
        if pt[q][x].perm.v { return Remap, m; }
        NoneValidMore(s, r, v0, m);
        RootKept(s, u, r, v0, m, pa, perm, owned);
        MapNext(s, u, r, v0, m, pa, perm, owned);
        pt := pt[q := pt[q][x := NewPte(p, perm)]];
        if owned { user := user[p := (r, a)]; } else { foreign := foreign + {(r, a)}; }
        m := m + 1;
        if a == v0 + n - 1 { return Done, m; }
        a := a + 1;
        p := p + 1;
      }
    }

    /** mappages.  Exactly `m` pages are mapped: all of them, or those before the one whose table could not be
        allocated, which was mapped already or which lies past MAXVA. */
    method Mappages(r: Page, va: nat, size: nat, pa: Page, perm: Perm, ghost owned: bool)
      returns (o: Outcome, ghost m: nat)
      requires Valid()
      requires va % PGSIZE == size % PGSIZE == 0 ==> MayMap(Now(), r, va / PGSIZE, size / PGSIZE, pa, perm, owned)
      modifies this
      ensures Valid() && (o.Misaligned? <==> va % PGSIZE != 0 || size % PGSIZE != 0)
      ensures if o.Misaligned? then Now() == old(Now())
        else MapResult(old(Now()), Now(), r, va / PGSIZE, size / PGSIZE, pa, perm, owned, o, m)
    {
      hide Inv, MayMap, MapDone, NoneValid, Lookup;
      if va % PGSIZE != 0 || size % PGSIZE != 0 { return Misaligned, 0; }
      o, m := MapRange(r, va / PGSIZE, size / PGSIZE, pa, perm, owned);
    }

    /** One turn of uvmunmap's loop; it fails only where walk panics. */
    method UnmapPage(r: Page, a: nat, doFree: bool) returns (ok: bool)
      requires Valid() && IsRoot(Now(), r) && (doFree ==> (r, a) !in foreign)
      modifies this
      ensures Valid() && (ok <==> a < NVPN)
      ensures if ok then UnmapDone(old(Now()), Now(), r, a, 1, doFree) else Now() == old(Now())
    {
      hide Inv, UnmapDone, Lookup, Grown, HasTable, IsRoot, Dropped;
      ghost var t := Now();
      var w, q, x := Walk(r, a * PGSIZE, false);
      if w.TooHigh? { return false; }
      UnmapNone(t, r, a, doFree);
      InvalidIsZero(t, r, a);
      if w.Found? { EntryIsLookup(t, r, a); }
      if w.Missing? || !pt[q][x].perm.v {
        UnmapSkip(t, t, r, a, 0, doFree);
      } else {
        DroppedKeeps(t, r, a, doFree);
        DroppedIs(t, r, a, doFree, q, x);
        var pa := pt[q][x].page;
        if doFree {
          free := [pa] + free;
          data := data - {pa};
        }
        user, foreign := if (r, a) in foreign then user else user - {pa}, foreign - {(r, a)};
        pt := pt[q := pt[q][x := NOPTE]];
        assert Now() == Dropped(t, r, a, doFree);
      }
      return true;
    }

    /** The loop of uvmunmap, over page numbers. */
    method UnmapRange(r: Page, v0: nat, n: nat, doFree: bool) returns (ok: bool, ghost m: nat)
      requires Valid() && IsRoot(Now(), r)
      requires doFree ==> forall v: nat :: InRange(v, v0, n) ==> (r, v) !in foreign
      modifies this
      ensures Valid() && UnmapDone(old(Now()), Now(), r, v0, m, doFree)
      ensures m <= n && (ok <==> m == n) && (m < n ==> v0 + m >= NVPN) && (ok <==> n == 0 || v0 + n <= NVPN)
    {
      hide Inv, UnmapDone, Lookup, IsRoot;
      ghost var s := Now();
      UnmapNone(s, r, v0, doFree);
      m := 0;
      var a := v0;
      while a < v0 + n
        invariant v0 <= a <= v0 + n && m == a - v0 && (a == v0 || a <= NVPN)
        invariant Valid() && UnmapDone(s, Now(), r, v0, a - v0, doFree)
      {
        ghost var t := Now();
        UnmapFacts(s, t, r, v0, a - v0, doFree);
        ok := UnmapPage(r, a, doFree);
        if !ok { return false, m; }
        UnmapJoin(s, t, Now(), r, v0, a - v0, doFree);
        a := a + 1;
        m := m + 1;
      }
      return true, m;
    }

    /** uvmunmap.  The first `m` pages are unmapped: all of them, or those below MAXVA when walk panics at the next;
        none when the address is not aligned. */
    method Uvmunmap(r: Page, va: nat, n: nat, doFree: bool) returns (ok: bool, ghost m: nat)
      requires Valid() && IsRoot(Now(), r)
      requires va % PGSIZE == 0 && doFree ==> forall v: nat :: InRange(v, va / PGSIZE, n) ==> (r, v) !in foreign
      modifies this
      ensures Valid() && UnmapDone(old(Now()), Now(), r, va / PGSIZE, m, doFree) && m <= n
      ensures ok <==> va % PGSIZE == 0 && (n == 0 || va / PGSIZE + n <= NVPN)
      ensures ok ==> m == n
      ensures !ok ==> if va % PGSIZE != 0 then m == 0 else m < n && va / PGSIZE + m >= NVPN
    {
      hide Inv, UnmapDone, IsRoot;
      if va % PGSIZE != 0 {
        UnmapNone(Now(), r, va / PGSIZE, doFree);
        return false, 0;
      }
      ok, m := UnmapRange(r, va / PGSIZE, n, doFree);
    }

    /** kalloc, fill the page, mappages it at v, and kfree it if that fails: the steps uvmalloc, uvmcopy and vmfault
        share.  Not ok: mappages panics, because the page is mapped already or past MAXVA. */
    method AddPage(r: Page, v: nat, bytes: seq<byte>, perm: Perm) returns (ok: bool, p: Page)
      requires Valid() && IsRoot(Now(), r) && perm.Rwx() && |bytes| == PGSIZE
      modifies this
      ensures !ok <==> old(free) != [] && (v >= NVPN || Lookup(old(Now()), r, v).perm.v)
      ensures ok ==> Valid() && AllocDone(old(Now()), Now(), r, v, if p != 0 then [NewPage(bytes, perm)] else [])
      ensures ok && p != 0 ==> Lookup(Now(), r, v) == NewPte(p, perm) && |old(free)| <= |free| + 3
      ensures ok && p != 0 ==> v < NVPN && Lookup(old(Now()), r, v) == NOPTE
      ensures ok && p == 0 ==> |old(free)| < 3 && |free| <= 1
    {
      hide Inv, Lookup, MapDone, AllocDone, NoneValid;
      ghost var s := Now();
      p := Kalloc();
      if p == 0 {
        AllocNone(s, r, v);
        return true, 0;
      }
      FilledKeeps(s, bytes);
      data := data[p := bytes];
      ghost var t := Now();
      SameTables(s, t, r, v);
      var o, m := Mappages(r, v * PGSIZE, PGSIZE, p, perm, true);
      InvalidIsZero(s, r, v);
      if o.Remap? || o.OutOfRange? { return false, p; }
      if o.Done? {
        NoneValidOne(t, r, v);
        AllocOne(s, Now(), r, v, NewPage(bytes, perm));
        MapOneLookup(t, Now(), r, v, p, perm);
        return true, p;
      }
      MapZeroFields(t, Now(), r, v, p, perm);
      AllocFailed(s, Now(), r, v, NewPage(bytes, perm));
      ok := Kfree(p);
      return true, 0;
    }

    /** uvmdealloc.  Not ok: walk panics past MAXVA. */
    method Uvmdealloc(r: Page, oldsz: nat, newsz: nat) returns (ok: bool, ret: nat)
      requires Valid() && IsRoot(Now(), r)
      requires forall v: nat :: Pages(newsz) <= v < Pages(oldsz) ==> (r, v) !in foreign
      modifies this
      ensures Valid() && (ok <==> Pages(oldsz) <= Pages(newsz) || oldsz <= MAXVA)
      ensures ok ==> ret == if newsz >= oldsz then oldsz else newsz
      ensures ok ==> UnmapDone(old(Now()), Now(), r, Pages(newsz),
                               if Pages(newsz) < Pages(oldsz) then Pages(oldsz) - Pages(newsz) else 0, true)
    {
      hide Inv, Lookup, UnmapDone;
      UnmapNone(Now(), r, Pages(newsz), true);
      if newsz >= oldsz { return true, oldsz; }
      if Pages(newsz) < Pages(oldsz) {
        ghost var m: nat;
        ok, m := Uvmunmap(r, Pages(newsz) * PGSIZE, Pages(oldsz) - Pages(newsz), true);
        if !ok { return false, 0; }
      }
      return true, newsz;
    }

    /** uvmalloc: zeroed pages up to newsz, or 0 with every page and mapping it made undone.  Not ok: mappages panics
        at a page that is mapped already or past MAXVA. */
    method Uvmalloc(r: Page, oldsz: nat, newsz: nat, perm: Perm) returns (ok: bool, ret: nat)
      requires Valid() && IsRoot(Now(), r) && perm.Rwx()
      modifies this
      ensures !ok ==> exists v: nat :: Pages(oldsz) <= v < Pages(newsz) && Blocked(old(Now()), r, v)
      ensures ok ==> Valid()
      ensures newsz < oldsz ==> ok && ret == oldsz && Now() == old(Now())
      ensures ok && newsz >= oldsz ==> ret == newsz || ret == 0
      ensures ok && newsz >= oldsz && ret == newsz ==>
        && Vacant(old(Now()), r, Pages(oldsz), Pages(newsz) - Pages(oldsz))
        && (Pages(oldsz) < Pages(newsz) ==> newsz <= MAXVA)
        && AllocDone(old(Now()), Now(), r, Pages(oldsz), ZeroPages(Pages(newsz) - Pages(oldsz), perm))
      ensures ok && newsz >= oldsz && ret != newsz ==>
          RolledBack(old(Now()), Now(), r) && |old(free)| < 3 * (Pages(newsz) - Pages(oldsz))
    {
      hide Inv, Lookup, AllocDone, UnmapDone, RolledBack, Vacant, Blocked;
      if newsz < oldsz { return true, oldsz; }
      ghost var s := Now();
      var v0 := Pages(oldsz);
      AllocNone(s, r, v0);
      VacantMore(s, r, v0, 0);
      var a := v0;
      while a * PGSIZE < newsz
        invariant v0 <= a <= Pages(newsz) && Valid() && AllocDone(s, Now(), r, v0, ZeroPages(a - v0, perm))
        invariant |old(free)| <= |free| + 3 * (a - v0) && Vacant(s, r, v0, a - v0) && (a == v0 || a <= NVPN)
        decreases Pages(newsz) - a
      {
        ghost var t := Now();
        AllocFacts(s, t, r, v0, ZeroPages(a - v0, perm));
        var mem;
        ok, mem := AddPage(r, a, Fill(0), perm);
        if !ok {
          BlockedAt(s, r, a);
          return false, 0;
        }
        AllocJoin(s, t, Now(), r, v0, ZeroPages(a - v0, perm), if mem != 0 then [NewPage(Fill(0), perm)] else []);
        if mem == 0 {
          assert ZeroPages(a - v0, perm) + [] == ZeroPages(a - v0, perm);
          ghost var u := Now();
          AllocFacts(s, u, r, v0, ZeroPages(a - v0, perm));
          VacantUnowned(s, r, v0, a - v0);
          var _, _ := Uvmdealloc(r, a * PGSIZE, v0 * PGSIZE);
          AllocUndone(s, u, Now(), r, v0, ZeroPages(a - v0, perm));
          return true, 0;
        }
        assert ZeroPages(a - v0, perm) + [NewPage(Fill(0), perm)] == ZeroPages(a + 1 - v0, perm);
        VacantMore(s, r, v0, a - v0);
        a := a + 1;
      }
      return true, newsz;
    }

    /** freewalk: with no leaf left in it, the whole subtree goes back to the allocator, each page once.  False is the
        "leaf" panic.  The parent's entry is left for the caller to clear. */
    method Freewalk(q: Page) returns (ok: bool)
      requires Valid() && q in node
      modifies this`free, this`pt, this`node, this`at
      ensures ok <==> NoLeaf(old(Now()), old(node)[q])
      ensures ok ==> InvExcept(Now(), ParentPage(old(Now()), old(node)[q]), old(node)[q].prefix % 512)
      ensures ok ==> Cut(old(Now()), Now(), Subtree(old(at), old(node)[q]))
      decreases node[q].level
    {
      hide Inv, Cut, NoLeaf, NoLeafBefore, InvExcept, Under, Bare, ParentPage, Child, Lookup;
      ghost var s := Now();
      ghost var k := node[q];
      FreewalkEntry(s, q, 0);
      var i := 0;
      CutNone(s);
      NoLeafNone(s, k);
      assert Behind(s.at, k, 0) == {};
      while i < 512
        invariant 0 <= i <= 512 && Valid() && Cut(s, Now(), Behind(s.at, k, i)) && q in node && node[q] == k
        invariant NoLeafBefore(s, k, i)
      {
        ghost var t := Now();
        CutFacts(s, t, Behind(s.at, k, i), q, k);
        FreewalkEntry(t, q, i);
        var e := pt[q][i];
        if k.level == 0 && e.perm.v { LeafFound(s, t, Behind(s.at, k, i), q, k, i); }
        if e.perm.v && !e.perm.Rwx() {
          ghost var c := Child(k, i);
          ChildParent(t, k, i, q);
          ChildLevel(k, i);
          var sub := Freewalk(e.page);
          CutLeaf(s, t, Behind(s.at, k, i), c);
          if !sub {
            NoLeafAbove(s, k, i);
            return false;
          }
          ChildClear(s, k, i);
          ghost var u := Now();
          BehindNext(s, t, k, i);
          CutJoin(s, t, u, Behind(s.at, k, i), Subtree(t.at, c));
          CutFacts(s, u, Behind(s.at, k, i + 1), q, k);
          SubtreeHas(t.at, c);
          ErasedKeeps(u, q, i);
          EraseEntry(q, i);
          CutJoin(s, u, Now(), Behind(s.at, k, i + 1), {});
          assert Behind(s.at, k, i + 1) + {} == Behind(s.at, k, i + 1);
          CutFacts(s, Now(), Behind(s.at, k, i + 1), q, k);
        } else if e.perm.v {
          return false;
        } else {
          InvTree(t);
          BehindSkip(s, t, k, i);
          EntryClear(s, t, Behind(s.at, k, i), q, k, i);
        }
        i := i + 1;
      }
      ghost var t := Now();
      CutLeaf(s, t, Behind(s.at, k, 512), k);
      CutFacts(s, t, Behind(s.at, k, 512), q, k);
      SameParent(s, t, k);
      BehindIsBare(s, t, q, k);
      RemovedKeeps(t, q);
      free := [q] + free;
      pt, node, at := pt - {q}, node - {q}, at - {node[q]};
      BehindAll(s, k);
      CutJoin(s, t, Now(), Behind(s.at, k, 512), {k});
      return true;
    }

    /** pagetable[i] = 0 */
    method EraseEntry(q: Page, x: nat)
      requires q in pt && x < |pt[q]|
      modifies this`pt
      ensures Now() == Erased(old(Now()), q, x)
    {
      pt := pt[q := pt[q][x := NOPTE]];
    }

    /** uvmfree of a tree that holds only its own pages.  False is a panic: freewalk's, when a page is mapped past sz,
        or walk's, when sz is past MAXVA. */
    method Uvmfree(r: Page, sz: nat) returns (ok: bool)
      requires Valid() && IsRoot(Now(), r)
      requires forall v: nat :: (r, v) !in foreign
      modifies this
      ensures ok <==> sz <= MAXVA && NothingFrom(old(Now()), r, Pages(sz))
      ensures ok ==> Valid() && TreeFreed(old(Now()), Now(), r)
    {
      hide Inv, UnmapDone, Cut, InvExcept, Lookup, Under, TreeFreed, NothingFrom, NoLeaf;
      ghost var s := Now();
      if sz > 0 {
        ghost var m: nat;
        ok, m := Uvmunmap(r, 0, Pages(sz), true);
        if !ok { return; }
      } else {
        UnmapNone(s, r, 0, true);
      }
      ghost var w := Now();
      UnmappedAll(s, w, r, Pages(sz));
      InvTree(w);
      RootNode(w, r);
      ok := Freewalk(r);
      if ok {
        OwnedBelow(s, r, Pages(sz));
        RootGone(Now());
        TreeIsFreed(s, w, Now(), r, Pages(sz));
      }
    }

    /** uvmfree of the tree that proc_pagetable began from s, with nothing mapped in it. */
    method FreeNewTree(r: Page, ghost s: State)
      requires Valid() && Inv(s) && NewTree(s, Now(), r, map[])
      modifies this
      ensures Valid() && data == s.data && forall p :: p in free <==> p in s.free
      ensures forall r': Page, v: nat :: Lookup(Now(), r', v) == Lookup(s, r', v)
    {
      hide Inv, Lookup, TreeFreed, NewTree;
      ghost var t := Now();
      NewTreeFacts(s, t, r, map[]);
      var freed := Uvmfree(r, 0);
      NewTreeFreed(s, t, Now(), r);
    }

    /**
      * proc_pagetable: a tree with the trampoline and the trapframe mapped, for the kernel only, and nothing else;
      * or 0 with every page back on the free list.
      */
    method ProcPagetable(trampoline: Page, frame: Page) returns (r: Page)
      requires Valid()
      modifies this
      ensures Valid() && (forall r': Page, v: nat :: r' != r ==> Lookup(Now(), r', v) == Lookup(old(Now()), r', v))
      ensures data == old(data) && (r != 0 ==> user == old(user))
      ensures r != 0 ==> UserTree(Now(), r, 0) && r !in old(pt)
      ensures r != 0 ==> Lookup(Now(), r, TRAMPOLINE) == NewPte(trampoline, TEXT)
      ensures r != 0 ==> Lookup(Now(), r, TRAPFRAME) == NewPte(frame, FRAME)
      ensures r == 0 ==> |old(free)| < 6 && forall p :: p in free <==> p in old(free)
    {
      hide Inv, UnmapDone, MapDone, Lookup, TreeFreed, Created, NewTree;
      ghost var s := Now();
      r := Uvmcreate();
      if r == 0 { return; }
      NewTreeCreated(s, Now(), r);
      ghost var t := Now();
      NewTreeFacts(s, t, r, map[]);
      var o, m := Mappages(r, TRAMPOLINE * PGSIZE, PGSIZE, trampoline, TEXT, false);
      NewTreeMapped(s, t, Now(), r, map[], TRAMPOLINE, trampoline, TEXT, m);
      if o != Done {
        FreeNewTree(r, s);
        return 0;
      }
      t := Now();
      ghost var one := map[TRAMPOLINE := NewPte(trampoline, TEXT)];
      NewTreeFacts(s, t, r, one);
      o, m := Mappages(r, TRAPFRAME * PGSIZE, PGSIZE, frame, FRAME, false);
      NewTreeMapped(s, t, Now(), r, one, TRAPFRAME, frame, FRAME, m);
      if o != Done {
        t := Now();
        NewTreeFacts(s, t, r, one);
        var ok, n := Uvmunmap(r, TRAMPOLINE * PGSIZE, 1, false);
        NewTreeUnmapped(s, t, Now(), r, one, TRAMPOLINE);
        assert one - {TRAMPOLINE} == map[];
        FreeNewTree(r, s);
        return 0;
      }
      NewTreeFacts(s, Now(), r, one[TRAPFRAME := NewPte(frame, FRAME)]);
    }

    /** proc_freepagetable: with nothing mapped between the process's pages and its trapframe, every page-table page
        and every user page goes back exactly once. */
    method ProcFreepagetable(r: Page, sz: nat)
      requires Valid() && sz <= MAXVA && UserTree(Now(), r, Pages(sz))
      modifies this
      ensures Valid() && TreeFreed(old(Now()), Now(), r)
    {
      hide Inv, UnmapDone, Lookup, TreeFreed;
      ghost var s := Now();
      var ok, m := Uvmunmap(r, TRAMPOLINE * PGSIZE, 1, false);
      ghost var t := Now();
      UnmapFacts(s, t, r, TRAMPOLINE, 1, false);
      ok, m := Uvmunmap(r, TRAPFRAME * PGSIZE, 1, false);
      ghost var u := Now();
      ForeignDropped(s, t, u, r, Pages(sz));
      ok := Uvmfree(r, sz);
      TreeFreedFrom(s, u, Now(), r);
    }

    /** uvmcopy: the child gets the same bytes under the same permission bits on frames of its own; without memory
        everything is undone; a page that is not present is a panic. */
    method Uvmcopy(r: Page, new_: Page, sz: nat) returns (ret: CopyResult)
      requires Valid() && IsRoot(Now(), r) && IsRoot(Now(), new_) && r != new_ && sz <= MAXVA
      requires OwnBelow(Now(), r, Pages(sz)) && Vacant(Now(), new_, 0, Pages(sz))
      modifies this
      ensures Valid()
      ensures ret == Copied ==> AllocDone(old(Now()), Now(), new_, 0, CopyPages(old(Now()), r, Pages(sz)))
      ensures ret == OutOfMemory ==> RolledBack(old(Now()), Now(), new_) && |old(free)| < 3 * Pages(sz)
      ensures ret == NotPresent ==> !Present(old(Now()), r, Pages(sz))
      ensures ret == Copied ==> Present(old(Now()), r, Pages(sz))
    {
      hide Inv, Lookup, AllocDone, UnmapDone, RolledBack, Grown;
      ghost var s := Now();
      AllocNone(s, new_, 0);
      assert CopyPages(s, r, 0) == [];
      var i := 0;
      while i * PGSIZE < sz
        invariant 0 <= i <= Pages(sz) && Valid() && AllocDone(s, Now(), new_, 0, CopyPages(s, r, i)) && Present(s, r, i)
        invariant |old(free)| <= |free| + 3 * i
        decreases Pages(sz) - i
      {
        ghost var t := Now();
        AllocFacts(s, t, new_, 0, CopyPages(s, r, i));
        ParentSame(s, t, r, new_, CopyPages(s, r, i), i);
        var w, q, x := Walk(r, i * PGSIZE, false);
        InvalidIsZero(t, r, i);
        if w.Missing? { return NotPresent; }
        EntryIsLookup(t, r, i);
        var e := pt[q][x];
        if !e.perm.v { return NotPresent; }
        CopySource(s, t, r, new_, CopyPages(s, r, i), Pages(sz));
        var ok, mem := AddPage(new_, i, data[e.page], e.perm);
        ghost var n := NewPage(t.data[e.page], e.perm);
        AllocJoin(s, t, Now(), new_, 0, CopyPages(s, r, i), if mem != 0 then [n] else []);
        if mem == 0 {
          assert CopyPages(s, r, i) + [] == CopyPages(s, r, i);
          ghost var u := Now();
          AllocFacts(s, u, new_, 0, CopyPages(s, r, i));
          VacantPrefix(s, new_, 0, i, Pages(sz));
          VacantUnowned(s, new_, 0, i);
          var undone, m := Uvmunmap(new_, 0, i, true);
          AllocUndone(s, u, Now(), new_, 0, CopyPages(s, r, i));
          return OutOfMemory;
        }
        assert CopyPages(s, r, i) + [n] == CopyPages(s, r, i + 1);
        i := i + 1;
      }
      return Copied;
    }

    /** walkaddr; 0 unless the page is mapped for the user. */
    method Walkaddr(r: Page, va: nat) returns (pa: Page)
      requires Valid() && IsRoot(Now(), r) && ForeignClosed(Now(), r)
      modifies this
      ensures Now() == old(Now())
      ensures pa == if UserPage(Now(), r, va) then Lookup(Now(), r, va / PGSIZE).page else 0
      ensures pa != 0 <==> UserPage(Now(), r, va)
      ensures pa != 0 ==> OwnsPage(Now(), r, va / PGSIZE)
    {
      hide Inv, Lookup, ForeignClosed, Grown, OwnsPage;
      ghost var s := Now();
      if va >= MAXVA { return 0; }
      var w, q, x := Walk(r, va, false);
      InvalidIsZero(s, r, va / PGSIZE);
      if w.Missing? { return 0; }
      EntryIsLookup(s, r, va / PGSIZE);
      if !pt[q][x].perm.v { return 0; }
      if !pt[q][x].perm.u { return 0; }
      UserOwns(s, r, va / PGSIZE);
      return pt[q][x].page;
    }

    /** vmfault for the current process, whose table is r and size psz: a zeroed page where none was. */
    method Vmfault(r: Page, va: nat, psz: nat, ghost at: nat) returns (pa: Page)
      requires Valid() && IsRoot(Now(), r) && psz <= MAXVA
      modifies this
      ensures Valid() && Poked(old(Now()), Now(), r, at, [])
      ensures pa != 0 ==> OwnsPage(Now(), r, va / PGSIZE) && Lookup(Now(), r, va / PGSIZE) == NewPte(pa, LAZY)
      ensures pa == 0 ==> Lookup(Now(), r, va / PGSIZE) == Lookup(old(Now()), r, va / PGSIZE)
      ensures pa != 0 ==> va < psz && !Lookup(old(Now()), r, va / PGSIZE).perm.v
      ensures pa == 0 ==> va >= psz || Lookup(old(Now()), r, va / PGSIZE).perm.v || |free| <= 1
    {
      hide Inv, Lookup, Grown, OwnsPage, AllocDone, Poked;
      ghost var s := Now();
      PokeNone(s, r, at);
      if va >= psz { return 0; }
      var v := va / PGSIZE;
      var w, q, x := Walk(r, v * PGSIZE, false);
      InvalidIsZero(s, r, v);
      if w.Found? {
        EntryIsLookup(s, r, v);
        if pt[q][x].perm.v { return 0; }
      }
      var ok;
      ok, pa := AddPage(r, v, Fill(0), LAZY);
      PokeAlloc(s, Now(), r, v, LAZY, pa != 0, at);
      if pa == 0 {
        AllocFacts(s, Now(), r, v, []);
      } else {
        AllocOwns(s, Now(), r, v, NewPage(Fill(0), LAZY));
      }
    }

    /** Copies w to the user page pa that holds address va. */
    method MoveIn(r: Page, va: nat, pa: Page, w: seq<byte>)
      requires Valid() && OwnsPage(Now(), r, va / PGSIZE) && pa == Lookup(Now(), r, va / PGSIZE).page
      requires va % PGSIZE + |w| <= PGSIZE
      modifies this
      ensures Valid() && Now() == old(Now()).(data := data) && Poked(old(Now()), Now(), r, va, w)
    {
      hide Inv, Lookup, OwnsPage, Poked;
      OwnsFacts(Now(), r, va / PGSIZE);
      PokeStore(Now(), r, va, w);
      StoredKeeps(Now(), pa, Patch(data[pa], va % PGSIZE, w));
      data := data[pa := Patch(data[pa], va % PGSIZE, w)];
    }

    /** copyout: on success exactly the bytes dst up to dst + |src| change, and they are src; on failure exactly the
        first k of them have. */
    method Copyout(r: Page, dst: nat, src: seq<byte>, psz: nat) returns (ret: int, ghost k: nat)
      requires Valid() && IsRoot(Now(), r) && psz <= MAXVA && ForeignClosed(Now(), r)
      modifies this
      ensures Valid() && k <= |src| && Poked(old(Now()), Now(), r, dst, src[..k])
      ensures ret == if k == |src| then 0 else -1
      ensures ret == -1 ==> Denied(Now(), r, dst + k, psz, true)
      ensures UserRange(Now(), r, dst, k)
    {
      hide Inv, Lookup, Grown, OwnsPage, Poked, ForeignClosed, UserRange;
      ghost var s0 := Now();
      PokeNone(s0, r, dst);
      k := 0;
      NoRange(s0, r, dst);
      var i := 0;
      assert src[..0] == [];
      while i < |src|
        invariant 0 <= i <= |src| && k == i && Valid() && Poked(s0, Now(), r, dst, src[..i])
        invariant UserRange(Now(), r, dst, i)
      {
        PokedFacts(s0, Now(), r, dst, src[..i]);
        var va := dst + i;
        var va0 := va / PGSIZE * PGSIZE;
        if va0 >= MAXVA { return -1, k; }
        var pa := Walkaddr(r, va0);
        if pa == 0 {
          ghost var s := Now();
          pa := Vmfault(r, va0, psz, dst + i);
          UserRangeKept(s, Now(), r, dst + i, [], dst, i);
          PokeJoin(s0, s, Now(), r, dst, src[..i], []);
          assert src[..i] + [] == src[..i];
          if pa == 0 { return -1, k; }
        }
        PokedFacts(s0, Now(), r, dst, src[..i]);
        ghost var s := Now();
        var _, q, x := Walk(r, va0, false);
        NoTableNoPage(s, r, va0 / PGSIZE);
        EntryIsLookup(s, r, va0 / PGSIZE);
        if !pt[q][x].perm.w { return -1, k; }
        var n := if PGSIZE - va % PGSIZE > |src| - i then |src| - i else PGSIZE - va % PGSIZE;
        UserRangeMore(s, r, dst, i, n);
        MoveIn(r, va, pa, src[i..i + n]);
        UserRangeKept(s, Now(), r, va, src[i..i + n], dst, i + n);
        PokeJoin(s0, s, Now(), r, dst, src[..i], src[i..i + n]);
        assert src[..i] + src[i..i + n] == src[..i + n];
        i := i + n;
        k := i;
      }
      assert src[..i] == src;
      return 0, k;
    }

    /** copyin: the bytes address-by-address translation would read, unallocated pages reading as zero. */
    method Copyin(r: Page, src: nat, len: nat, psz: nat) returns (ret: int, dst: seq<byte>)
      requires Valid() && IsRoot(Now(), r) && psz <= MAXVA && ForeignClosed(Now(), r)
      modifies this
      ensures Valid() && Poked(old(Now()), Now(), r, src, []) && (ret == 0 || ret == -1)
      ensures |dst| <= len && dst == BytesOf(old(Now()), r, src, |dst|)
      ensures ret == if |dst| == len then 0 else -1
      ensures ret == -1 ==> Denied(Now(), r, src + |dst|, psz, false)
    {
      hide Inv, Lookup, OwnsPage, Poked, ForeignClosed, ByteOf;
      ghost var s0 := Now();
      PokeNone(s0, r, src);
      dst := [];
      while |dst| < len
        invariant |dst| <= len && Valid() && Poked(s0, Now(), r, src, []) && dst == BytesOf(s0, r, src, |dst|)
        decreases len - |dst|
      {
        PokedFacts(s0, Now(), r, src, []);
        var va := src + |dst|;
        var va0 := va / PGSIZE * PGSIZE;
        var pa := Walkaddr(r, va0);
        if pa == 0 {
          ghost var s := Now();
          pa := Vmfault(r, va0, psz, src);
          PokeJoin(s0, s, Now(), r, src, NOBYTES, NOBYTES);
          assert NOBYTES + NOBYTES == NOBYTES;
          if pa == 0 { return -1, dst; }
        }
        var n := if PGSIZE - va % PGSIZE > len - |dst| then len - |dst| else PGSIZE - va % PGSIZE;
        BytesSame(s0, Now(), r, src, src, |dst|);
        BytesSame(s0, Now(), r, src, src, |dst| + n);
        ReadPage(Now(), r, src, |dst|, n);
        OwnsFacts(Now(), r, va / PGSIZE);
        dst := dst + data[pa][va % PGSIZE..va % PGSIZE + n];
      }
      return 0, dst;
    }

    /** copyout, then copyin of the same range: once copyout has succeeded copyin does too, and brings back exactly what
        was written. */
    method CopyThereAndBack(r: Page, va: nat, src: seq<byte>, psz: nat) returns (out: int, in_: int, back: seq<byte>)
      requires Valid() && IsRoot(Now(), r) && psz <= MAXVA && ForeignClosed(Now(), r)
      modifies this
      ensures Valid()
      ensures out == 0 ==> in_ == 0 && back == src
    {
      hide Inv, Lookup, Poked, ForeignClosed, UserRange, ByteOf, Denied;
      ghost var s := Now();
      var ret, k := Copyout(r, va, src, psz);
      ghost var t := Now();
      PokedFacts(s, t, r, va, src[..k]);
      out, in_, back := ret, -1, [];
      if out == 0 {
        assert src[..k] == src;
        ReadsBack(s, t, r, va, src);
        in_, back := Copyin(r, va, |src|, psz);
        UserRangeKept(t, Now(), r, va, NOBYTES, va, |src|);
        if in_ == -1 { RangeNotDenied(Now(), r, va, |src|, |back|, psz); }
      }
    }

    /** The inner loop of copyinstr: the bytes before the first NUL among n of them. */
    static method CopyUntilNul(f: seq<byte>, at: nat, n: nat) returns (m: nat, nul: bool)
      requires at + n <= |f|
      ensures m <= n && (forall k :: at <= k < at + m ==> f[k] != 0) && (nul <==> m < n) && (nul ==> f[at + m] == 0)
    {
      m := 0;
      while m < n
        invariant 0 <= m <= n && forall k :: at <= k < at + m ==> f[k] != 0
      {
        if f[at + m] == 0 { return m, true; }
        m := m + 1;
      }
      return m, false;
    }

    /** copyinstr: `str` is the string up to its NUL, when the NUL comes within max bytes of user-readable pages. */
    method Copyinstr(r: Page, src: nat, max: nat) returns (ret: int, str: seq<byte>)
      requires Valid() && IsRoot(Now(), r) && ForeignClosed(Now(), r)
      modifies this
      ensures Now() == old(Now()) && (ret == 0 || ret == -1)
      ensures str == BytesOf(Now(), r, src, |str|) && 0 !in str
      ensures ret == 0 ==> |str| < max && ByteOf(Now(), r, src + |str|) == 0 && UserPage(Now(), r, src + |str|)
      ensures ret == -1 ==> |str| == max || !UserPage(Now(), r, src + |str|)
    {
      hide Inv, Lookup, OwnsPage, ForeignClosed;
      str := [];
      while |str| < max
        invariant |str| <= max && Now() == old(Now()) && str == BytesOf(Now(), r, src, |str|) && 0 !in str
        decreases max - |str|
      {
        var va := src + |str|;
        var va0 := va / PGSIZE * PGSIZE;
        var pa := Walkaddr(r, va0);
        if pa == 0 { return -1, str; }
        var n := if PGSIZE - va % PGSIZE > max - |str| then max - |str| else PGSIZE - va % PGSIZE;
        OwnsFacts(Now(), r, va / PGSIZE);
        var m, nul := CopyUntilNul(data[pa], va % PGSIZE, n);
        ReadPage(Now(), r, src, |str|, m);
        str := str + data[pa][va % PGSIZE..va % PGSIZE + m];
        if nul {
          NulByte(Now(), r, va, m);
          return 0, str;
        }
      }
      return -1, str;
    }

    /**
      * loadseg: reads bytes offset .. offset + sz of `file` to user addresses va .. va + sz, page by page.
      * Exactly the k bytes that were read have been stored.
      */
    method Loadseg(r: Page, va: nat, file: seq<byte>, offset: nat, sz: nat) returns (ret: LoadResult, ghost k: nat)
      requires Valid() && IsRoot(Now(), r) && ForeignClosed(Now(), r)
      modifies this
      ensures Valid() && k <= sz && (k > 0 ==> offset + k <= |file|)
      ensures Poked(old(Now()), Now(), r, va, Piece(file, offset, k))
      ensures ret == Loaded <==> k == sz
      ensures ret == Short ==> offset + k >= |file|
      ensures ret == NoSuchAddress ==> !UserPage(old(Now()), r, va + k)
    {
      hide Inv, Lookup, Grown, OwnsPage, Poked, ForeignClosed, Piece;
      ghost var s0 := Now();
      PokeNone(s0, r, va);
      PieceJoin(file, offset, 0, 0);
      var i := 0;
      k := 0;
      while i < sz
        invariant 0 <= i == k <= sz && Valid() && (i > 0 ==> offset + i <= |file|)
        invariant Poked(s0, Now(), r, va, Piece(file, offset, i))
        invariant forall a: nat :: UserPage(s0, r, a) ==> UserPage(Now(), r, a)
      {
        ghost var s := Now();
        PokedFacts(s0, s, r, va, Piece(file, offset, i));
        var pa := Walkaddr(r, va + i);
        if pa == 0 { return NoSuchAddress, k; }
        var off := (va + i) % PGSIZE;
        var n := if sz - i < PGSIZE - off then sz - i else PGSIZE - off;
        var m := if offset + i > |file| then 0 else if offset + i + n > |file| then |file| - (offset + i) else n;
        if m > 0 {
          PieceJoin(file, offset, i, m);
          MoveIn(r, va + i, pa, file[offset + i..offset + i + m]);
          PokeJoin(s0, s, Now(), r, va, Piece(file, offset, i), file[offset + i..offset + i + m]);
          StoredUsers(s, Now());
        }
        k := i + m;
        if m != n { return Short, k; }
        i := i + n;
      }
      return Loaded, k;
    }
  }
}
