/**
 Completing a closure of store roots under the links found inside them.

 Paths are lists of components and the file system is a parameter that does not
 change during preparation.  Every root that enters the closure is charged to a
 bounded budget first, which is why the worklist comes to an end.
 */
module Closure {
  import opened Common

  datatype Path = Path(parts: seq<string>)
  datatype Kind = Absent | Regular | Directory | Symlink

  const STORE: seq<string> := ["nix", "store"]
  const LIMIT := 4294967296

  /** An entry of a root: the sizes charged for it, and where a link resolves to. */
  datatype Record =
    | Plain(nameBytes: nat, size: nat)
    | Linked(nameBytes: nat, linkBytes: nat, resolvedBytes: nat, exempt: bool, resolved: Path)

  datatype Disk = Disk(
    kind: Path -> Kind,
    pathBytes: Path -> nat,
    contents: Path -> Option<seq<Record>>,      // nothing: a special file was found
    requisites: Path -> Option<seq<Path>>)      // nothing: the query failed

  /** Whatever exists lies in directories, or behind links to them. */
  ghost predicate Treelike(disk: Disk) {
    forall p: Path, n: nat | n < |p.parts| && disk.kind(p) != Absent ::
      disk.kind(Path(p.parts[..n])) in {Directory, Symlink}
  }

  predicate IsDrv(name: string) { |name| > 4 && name[|name| - 4..] == ".drv" }

  /** `store_root` */
  predicate StoreRoot(disk: Disk, p: Path) {
    |p.parts| == 3 && p.parts[..2] == STORE && !IsDrv(p.parts[2]) && disk.kind(p) in {Directory, Regular}
  }

  /** `linked_store_root` */
  function LinkedRoot(disk: Disk, target: Path): Option<Path> {
    if |target.parts| <= 2 || target.parts[..2] != STORE || disk.kind(target) == Absent then None
    else if StoreRoot(disk, Path(target.parts[..3])) then Some(Path(target.parts[..3]))
    else None
  }

  /** The test of the second pass. */
  predicate Reaches(disk: Disk, selected: Path, target: Path) {
    target == selected || (disk.kind(selected) == Directory && selected.parts < target.parts)
  }

  // ---- the budget --------------------------------------------------------

  class EntryBudget {
    const maxEntries: nat
    const maxRoots: nat
    const maxField: nat
    const maxMetadata: nat
    var entries: nat
    var metadata: nat
    var roots: set<Path>

    ghost predicate Valid() reads this {
      entries <= maxEntries && metadata <= maxMetadata && |roots| <= maxRoots
    }

    constructor (maxEntries: nat, maxRoots: nat, maxField: nat, maxMetadata: nat)
      ensures Valid() && entries == 0 && metadata == 0 && roots == {}
      ensures this.maxEntries == maxEntries && this.maxRoots == maxRoots
      ensures this.maxField == maxField && this.maxMetadata == maxMetadata
    {
      this.maxEntries, this.maxRoots, this.maxField, this.maxMetadata := maxEntries, maxRoots, maxField, maxMetadata;
      entries, metadata, roots := 0, 0, {};
    }

    /** A field of this size cannot be charged any more. */
    ghost predicate Rejects(size: nat) reads this { size > maxField || metadata + size > maxMetadata }

    method Charge(size: nat) returns (ok: bool)
      requires Valid()
      modifies this`metadata
      ensures Valid() && ok == (size <= maxField && old(metadata) + size <= maxMetadata)
      ensures metadata == old(metadata) + if ok then size else 0
    {
      ok := size <= maxField && metadata + size <= maxMetadata;
      if ok {
        metadata := metadata + size;
      }
    }

    /** A root is charged once; a refused root is not recorded. */
    method Root(p: Path, bytes: nat) returns (ok: bool)
      requires Valid()
      modifies this`metadata, this`roots
      ensures Valid()
      ensures ok <==>
        || p in old(roots)
        || (|old(roots)| < maxRoots && bytes <= maxField && old(metadata) + bytes <= maxMetadata)
      ensures roots == if ok then old(roots) + {p} else old(roots)
      ensures metadata == old(metadata) + if ok && p !in old(roots) then bytes else 0
    {
      if p in roots {
        assert roots == roots + {p};
        return true;
      }
      if |roots| >= maxRoots {
        return false;
      }
      ok := Charge(bytes);
      if ok {
        roots := roots + {p};
      }
    }

    method Entry(nameBytes: nat, linkBytes: Option<nat>) returns (ok: bool)
      requires Valid()
      modifies this`metadata, this`entries
      ensures Valid() && entries == old(entries) + if ok then 1 else 0
      ensures ok <==>
        && old(entries) < maxEntries && nameBytes <= maxField && old(metadata) + nameBytes <= maxMetadata
        && (linkBytes.Some? ==> linkBytes.value <= maxField)
        && (linkBytes.Some? ==> old(metadata) + nameBytes + linkBytes.value <= maxMetadata)
      ensures ok ==> metadata == old(metadata) + nameBytes + if linkBytes.Some? then linkBytes.value else 0
      ensures !ok ==> entries >= maxEntries || Rejects(nameBytes) || (linkBytes.Some? && Rejects(linkBytes.value))
    {
      if entries >= maxEntries {
        return false;
      }
      ok := Charge(nameBytes);
      if ok && linkBytes.Some? {
        ok := Charge(linkBytes.value);
      }
      if ok {
        entries := entries + 1;
      }
    }
  }

  // ---- what the closure promises -----------------------------------------

  type Catalog = map<Path, seq<Record>>

  /** A link that the closure has to follow. */
  predicate Followed(record: Record) { record.Linked? && !record.exempt }

  /** Every followed link leads to a store root inside `members`. */
  ghost predicate Settled(disk: Disk, records: seq<Record>, members: set<Path>) {
    forall i | 0 <= i < |records| && Followed(records[i]) ::
      LinkedRoot(disk, records[i].resolved).Some? && LinkedRoot(disk, records[i].resolved).value in members
  }

  ghost predicate ClosedUnder(disk: Disk, catalog: Catalog, members: set<Path>) {
    forall root | root in catalog :: Settled(disk, catalog[root], members)
  }

  ghost predicate IsRequisite(disk: Disk, linked: Path, p: Path) {
    disk.requisites(linked).Some? && p in disk.requisites(linked).value
  }

  /** One of the links is to `p`, or to a root that requires `p`. */
  ghost predicate LeadsTo(disk: Disk, records: seq<Record>, p: Path) {
    exists i :: 0 <= i < |records| && Followed(records[i]) && Offers(disk, records[i].resolved, p)
  }

  ghost predicate Offers(disk: Disk, target: Path, p: Path) {
    LinkedRoot(disk, target).Some? &&
    (p == LinkedRoot(disk, target).value || IsRequisite(disk, LinkedRoot(disk, target).value, p))
  }

  /** The links of a root on disk lead to `p`. */
  ghost predicate RootLeadsTo(disk: Disk, root: Path, p: Path) {
    disk.contents(root).Some? && LeadsTo(disk, disk.contents(root).value, p)
  }

  /** A set that holds the initial roots and everything its members lead to. */
  ghost predicate Saturated(disk: Disk, initial: set<Path>, s: iset<Path>) {
    && (forall p | p in initial :: p in s)
    && (forall root, p | root in s && RootLeadsTo(disk, root, p) :: p in s)
  }

  /** The links of a root on disk lead to the store root `q` itself. */
  ghost predicate RootLinks(disk: Disk, root: Path, q: Path) {
    && disk.contents(root).Some?
    && var records := disk.contents(root).value;
    exists i :: 0 <= i < |records| && Followed(records[i]) && LinkedRoot(disk, records[i].resolved) == Some(q)
  }

  /** Linked from a member, and there with everything it requires. */
  ghost predicate Stocked(disk: Disk, members: set<Path>, q: Path) {
    && q in members && (exists root :: root in members && RootLinks(disk, root, q))
    && disk.requisites(q).Some? && forall p | p in disk.requisites(q).value :: p in members
  }

  /** Initial, stocked, or brought in by something stocked. */
  ghost predicate Supplied(disk: Disk, initial: set<Path>, members: set<Path>, p: Path) {
    p in initial || Stocked(disk, members, p) || exists q :: Stocked(disk, members, q) && IsRequisite(disk, q, p)
  }

  lemma StockedGrows(disk: Disk, fewer: set<Path>, members: set<Path>, q: Path)
    requires Stocked(disk, fewer, q) && fewer <= members
    ensures Stocked(disk, members, q)
  {
    hide RootLinks;
  }

  lemma SuppliedGrows(disk: Disk, initial: set<Path>, fewer: set<Path>, members: set<Path>, p: Path)
    requires Supplied(disk, initial, fewer, p) && fewer <= members
    ensures Supplied(disk, initial, members, p)
  {
    hide Stocked;
    if p !in initial {
      if Stocked(disk, fewer, p) {
        StockedGrows(disk, fewer, members, p);
      } else {
        var q :| Stocked(disk, fewer, q) && IsRequisite(disk, q, p);
        StockedGrows(disk, fewer, members, q);
      }
    }
  }

  /** In the least saturated set: reached from the initial roots in finitely many links. */
  ghost predicate Needed(disk: Disk, initial: set<Path>, p: Path) {
    forall s: iset<Path> | Saturated(disk, initial, s) :: p in s
  }

  lemma NeededStep(disk: Disk, initial: set<Path>, root: Path, p: Path)
    requires Needed(disk, initial, root) && RootLeadsTo(disk, root, p)
    ensures Needed(disk, initial, p)
  {
    forall s: iset<Path> | Saturated(disk, initial, s) ensures p in s {
      assert root in s;
    }
  }

  /** Nothing is needed without a reason: it is initial, or a needed root leads to it. */
  lemma NeededHasReason(disk: Disk, initial: set<Path>, p: Path)
    requires Needed(disk, initial, p)
    ensures p in initial || exists root :: Needed(disk, initial, root) && RootLeadsTo(disk, root, p)
  {
    if p !in initial && !exists root :: Needed(disk, initial, root) && RootLeadsTo(disk, root, p) {
      var s := iset q: Path | Needed(disk, initial, q) && q != p;
      forall root, q | root in s && RootLeadsTo(disk, root, q) ensures q in s {
        NeededStep(disk, initial, root, q);
      }
      assert Saturated(disk, initial, s);
      assert false;
    }
  }

  ghost function NeededSet(disk: Disk, initial: set<Path>): iset<Path> { iset p: Path | Needed(disk, initial, p) }

  lemma NeededSaturated(disk: Disk, initial: set<Path>)
    ensures Saturated(disk, initial, NeededSet(disk, initial))
  {
    hide RootLeadsTo;
    forall root, p | root in NeededSet(disk, initial) && RootLeadsTo(disk, root, p)
      ensures p in NeededSet(disk, initial)
    {
      NeededStep(disk, initial, root, p);
    }
  }

  // ---- why it may be refused ---------------------------------------------

  /** The path of a needed root, or a field of one of its records, has this size. */
  ghost predicate NeededField(disk: Disk, needed: iset<Path>, n: nat) {
    exists root :: root in needed &&
      (n == disk.pathBytes(root) || (disk.contents(root).Some? && FieldIn(disk.contents(root).value, n)))
  }

  ghost predicate FieldIn(records: seq<Record>, n: nat) {
    exists i :: 0 <= i < |records| &&
      (n == records[i].nameBytes ||
       (records[i].Linked? && (n == records[i].linkBytes || n == records[i].resolvedBytes)))
  }

  ghost function DiskSize(disk: Disk, order: seq<Path>): nat {
    if order == [] then 0
    else
      var last := order[|order| - 1];
      DiskSize(disk, order[..|order| - 1]) +
        if disk.contents(last).Some? then TotalSize(disk.contents(last).value) else 0
  }

  ghost predicate Unlike(order: seq<Path>) { forall i, j | 0 <= i < j < |order| :: order[i] != order[j] }

  /** What a refusal says is so, of something that is needed. */
  ghost predicate Blamed(disk: Disk, needed: iset<Path>, budget: EntryBudget, refusal: Refusal) reads budget {
    match refusal
    case Quota =>
      || budget.entries >= budget.maxEntries
      || (|budget.roots| >= budget.maxRoots && exists p :: p in needed && p !in budget.roots)
      || (exists n: nat :: NeededField(disk, needed, n) && budget.Rejects(n))
    case TooLarge =>
      exists order: seq<Path> ::
        Unlike(order) && (forall p | p in order :: p in needed) && DiskSize(disk, order) > LIMIT
    case SpecialFile => exists root :: root in needed && disk.contents(root).None?
    case BadLink => exists root :: root in needed && DeadLink(disk, root)
    case BadQuery => exists q :: q in needed && BadAnswer(disk, q)
    case EscapesClosure => false
  }

  ghost predicate DeadLink(disk: Disk, root: Path) {
    && disk.contents(root).Some?
    && var records := disk.contents(root).value;
    exists i :: 0 <= i < |records| && Followed(records[i]) && LinkedRoot(disk, records[i].resolved).None?
  }

  ghost predicate BadAnswer(disk: Disk, q: Path) {
    disk.requisites(q).None? || exists p :: p in disk.requisites(q).value && !StoreRoot(disk, p)
  }

  /** A root that is needed and cannot be charged. */
  lemma RootRefused(disk: Disk, needed: iset<Path>, budget: EntryBudget, p: Path)
    requires p in needed && p !in budget.roots
    requires |budget.roots| >= budget.maxRoots || budget.Rejects(disk.pathBytes(p))
    ensures Blamed(disk, needed, budget, Quota)
  {
    assert NeededField(disk, needed, disk.pathBytes(p));
  }

  lemma FieldRefused(disk: Disk, needed: iset<Path>, budget: EntryBudget, root: Path, i: nat, n: nat)
    requires root in needed && disk.contents(root).Some? && i < |disk.contents(root).value|
    requires var record := disk.contents(root).value[i];
      n == record.nameBytes || (record.Linked? && (n == record.linkBytes || n == record.resolvedBytes))
    requires budget.Rejects(n)
    ensures Blamed(disk, needed, budget, Quota)
  {
    assert FieldIn(disk.contents(root).value, n);
    assert NeededField(disk, needed, n);
  }

  lemma {:induction false} PrefixSize(records: seq<Record>, i: nat)
    requires i <= |records|
    ensures TotalSize(records[..i]) <= TotalSize(records)
    decreases |records|
  {
    if i < |records| {
      PrefixSize(records[..|records| - 1], i);
      assert records[..|records| - 1][..i] == records[..i];
    } else {
      assert records[..i] == records;
    }
  }

  lemma OneTooLarge(disk: Disk, needed: iset<Path>, budget: EntryBudget, root: Path, i: nat)
    requires root in needed && disk.contents(root).Some? && i <= |disk.contents(root).value|
    requires TotalSize(disk.contents(root).value[..i]) > LIMIT
    ensures Blamed(disk, needed, budget, TooLarge)
  {
    PrefixSize(disk.contents(root).value, i);
    var order := [root];
    assert order[..0] == [];
    assert DiskSize(disk, order) == DiskSize(disk, order[..0]) + TotalSize(disk.contents(root).value);
    assert Unlike(order);
  }

  lemma {:induction false} CatalogSize(disk: Disk, order: seq<Path>, catalog: Catalog)
    requires forall p | p in order :: p in catalog && disk.contents(p) == Some(catalog[p])
    ensures DiskSize(disk, order) == SizeOf(order, catalog)
  {
    if order != [] {
      CatalogSize(disk, order[..|order| - 1], catalog);
    }
  }

  lemma AllTooLarge(
    disk: Disk, needed: iset<Path>, budget: EntryBudget, order: seq<Path>, catalog: Catalog, size: int, root: Path)
    requires Accounted(order, catalog, size) && root in needed && root !in catalog && disk.contents(root).Some?
    requires forall p | p in catalog :: p in needed && disk.contents(p) == Some(catalog[p])
    requires size + TotalSize(disk.contents(root).value) > LIMIT
    ensures Blamed(disk, needed, budget, TooLarge)
  {
    CatalogSize(disk, order, catalog);
    var longer := order + [root];
    assert longer[..|longer| - 1] == order;
    assert Unlike(longer) && DiskSize(disk, longer) > LIMIT;
  }

  /** The bytes charged for the records of a root. */
  ghost function RecordBytes(records: seq<Record>): nat {
    if records == [] then 0
    else
      var last := records[|records| - 1];
      RecordBytes(records[..|records| - 1]) + last.nameBytes +
        if last.Linked? then last.linkBytes + last.resolvedBytes else 0
  }

  lemma BytesNext(records: seq<Record>, record: Record)
    ensures RecordBytes([]) == 0
    ensures RecordBytes(records + [record]) ==
      RecordBytes(records) + record.nameBytes + if record.Linked? then record.linkBytes + record.resolvedBytes else 0
  {
    assert (records + [record])[..|records|] == records;
  }

  // ---- sizes and order ---------------------------------------------------

  /** The bytes of the regular files. */
  ghost function TotalSize(records: seq<Record>): nat {
    if records == [] then 0
    else TotalSize(records[..|records| - 1]) + if records[|records| - 1].Plain? then records[|records| - 1].size else 0
  }

  lemma NoSize()
    ensures TotalSize([]) == 0
  {}

  lemma SizeNext(records: seq<Record>, record: Record)
    ensures TotalSize(records + [record]) == TotalSize(records) + if record.Plain? then record.size else 0
  {
    assert (records + [record])[..|records|] == records;
  }

  ghost function SizeOf(order: seq<Path>, catalog: Catalog): nat
    requires forall p | p in order :: p in catalog
  {
    if order == [] then 0 else SizeOf(order[..|order| - 1], catalog) + TotalSize(catalog[order[|order| - 1]])
  }

  /** `order` is the catalogue's insertion order, and `size` its bytes. */
  ghost predicate Accounted(order: seq<Path>, catalog: Catalog, size: int) {
    && (forall p :: p in order <==> p in catalog)
    && (forall i, j | 0 <= i < j < |order| :: order[i] != order[j])
    && size == SizeOf(order, catalog)
  }

  lemma {:induction false} SizeOfKept(order: seq<Path>, catalog: Catalog, root: Path, records: seq<Record>)
    requires forall p | p in order :: p in catalog
    requires root !in order
    ensures SizeOf(order, catalog[root := records]) == SizeOf(order, catalog)
  {
    if order != [] {
      SizeOfKept(order[..|order| - 1], catalog, root, records);
    }
  }

  lemma AccountedNext(order: seq<Path>, catalog: Catalog, size: int, root: Path, records: seq<Record>)
    requires Accounted(order, catalog, size) && root !in catalog
    ensures Accounted(order + [root], catalog[root := records], size + TotalSize(records))
  {
    SizeOfKept(order, catalog, root, records);
    var longer := order + [root];
    assert longer[..|longer| - 1] == order;
  }

  datatype Refusal = Quota | TooLarge | SpecialFile | BadLink | BadQuery | EscapesClosure

  /** `entries`: the records of one root, charged one by one. */
  method Entries(disk: Disk, root: Path, budget: EntryBudget, ghost needed: iset<Path>)
    returns (refusal: Option<Refusal>, records: seq<Record>, used: nat)
    requires budget.Valid() && root in needed
    modifies budget
    ensures budget.Valid() && old(budget.roots) <= budget.roots <= old(budget.roots) + {root}
    ensures refusal.None? ==> Some(records) == disk.contents(root) && used == TotalSize(records) <= LIMIT
    ensures refusal.None? ==>
      && budget.entries == old(budget.entries) + |records|
      && budget.metadata == old(budget.metadata) + RecordBytes(records) +
           if root in old(budget.roots) then 0 else disk.pathBytes(root)
    ensures refusal.Some? ==> Blamed(disk, needed, budget, refusal.value)
  {
    hide TotalSize, Blamed, RecordBytes;
    records, used, refusal := [], 0, None;
    NoSize();
    var ok := budget.Root(root, disk.pathBytes(root));
    if !ok {
      RootRefused(disk, needed, budget, root);
      return Some(Quota), [], 0;
    }
    var found := disk.contents(root);
    if found.None? {
      BlameSpecial(disk, needed, budget, root);
      return Some(SpecialFile), [], 0;
    }
    var all := found.value;
    ghost var start := budget.metadata;
    if all != [] {
      BytesNext([], all[0]);
    } else {
      BytesNext([], Plain(0, 0));
    }
    for i := 0 to |all|
      invariant budget.Valid() && budget.roots == old(budget.roots) + {root}
      invariant records == all[..i] && used == TotalSize(records) <= LIMIT
      invariant budget.entries == old(budget.entries) + i && budget.metadata == start + RecordBytes(records)
    {
      BytesNext(records, all[i]);
      match all[i] {
        case Plain(nameBytes, size) =>
          ok := budget.Entry(nameBytes, None);
          if !ok {
            EntryRefused(disk, needed, budget, root, i);
          }
          used := used + size;
        case Linked(nameBytes, linkBytes, resolvedBytes, _, _) =>
          ok := budget.Entry(nameBytes, Some(linkBytes));
          if ok {
            ok := budget.Charge(resolvedBytes);
          }
          if !ok {
            EntryRefused(disk, needed, budget, root, i);
          }
      }
      if !ok {
        return Some(Quota), records, used;
      }
      SizeNext(records, all[i]);
      records := records + [all[i]];
      assert all[..i + 1] == records;
      if used > LIMIT {
        OneTooLarge(disk, needed, budget, root, i + 1);
        return Some(TooLarge), records, used;
      }
    }
    assert all[..|all|] == all;
  }

  lemma BlameSpecial(disk: Disk, needed: iset<Path>, budget: EntryBudget, root: Path)
    requires root in needed && disk.contents(root).None?
    ensures Blamed(disk, needed, budget, SpecialFile)
  {}

  lemma EntryRefused(disk: Disk, needed: iset<Path>, budget: EntryBudget, root: Path, i: nat)
    requires root in needed && disk.contents(root).Some? && i < |disk.contents(root).value|
    requires var record := disk.contents(root).value[i];
      || budget.entries >= budget.maxEntries || budget.Rejects(record.nameBytes)
      || (record.Linked? && (budget.Rejects(record.linkBytes) || budget.Rejects(record.resolvedBytes)))
    ensures Blamed(disk, needed, budget, Quota)
  {
    var record := disk.contents(root).value[i];
    if budget.entries < budget.maxEntries {
      if budget.Rejects(record.nameBytes) {
        FieldRefused(disk, needed, budget, root, i, record.nameBytes);
      } else if budget.Rejects(record.linkBytes) {
        FieldRefused(disk, needed, budget, root, i, record.linkBytes);
      } else {
        FieldRefused(disk, needed, budget, root, i, record.resolvedBytes);
      }
    }
  }

  /** `query_roots`: each answer is charged and checked. */
  method QueryRoots(disk: Disk, linked: Path, budget: EntryBudget, ghost needed: iset<Path>)
    returns (refusal: Option<Refusal>, roots: seq<Path>)
    requires budget.Valid() && linked in needed
    requires disk.requisites(linked).Some? ==> forall p | p in disk.requisites(linked).value :: p in needed
    modifies budget
    ensures budget.Valid() && old(budget.roots) <= budget.roots && budget.entries == old(budget.entries)
    ensures refusal.None? ==> Some(roots) == disk.requisites(linked)
    ensures refusal.None? ==> forall p | p in roots :: p in budget.roots && StoreRoot(disk, p)
    ensures refusal.Some? ==> Blamed(disk, needed, budget, refusal.value)
  {
    hide Blamed, StoreRoot;
    refusal, roots := None, [];
    var answer := disk.requisites(linked);
    if answer.None? {
      BlameAnswer(disk, needed, budget, linked);
      return Some(BadQuery), [];
    }
    for i := 0 to |answer.value|
      invariant budget.Valid() && old(budget.roots) <= budget.roots && budget.entries == old(budget.entries)
      invariant roots == answer.value[..i] && forall p | p in roots :: p in budget.roots && StoreRoot(disk, p)
    {
      var p := answer.value[i];
      var ok := budget.Root(p, disk.pathBytes(p));
      if !ok {
        RootRefused(disk, needed, budget, p);
        return Some(Quota), roots;
      }
      if !StoreRoot(disk, p) {
        BlameAnswer(disk, needed, budget, linked);
        return Some(BadQuery), roots;
      }
      roots := roots + [p];
    }
    assert answer.value[..|answer.value|] == answer.value;
  }

  lemma BlameAnswer(disk: Disk, needed: iset<Path>, budget: EntryBudget, q: Path)
    requires q in needed && BadAnswer(disk, q)
    ensures Blamed(disk, needed, budget, BadQuery)
  {}

  // ---- the worklist ------------------------------------------------------

  lemma SettledNext(disk: Disk, records: seq<Record>, i: nat, fewer: set<Path>, members: set<Path>)
    requires i < |records| && Settled(disk, records[..i], fewer) && fewer <= members
    requires Followed(records[i]) ==>
      LinkedRoot(disk, records[i].resolved).Some? && LinkedRoot(disk, records[i].resolved).value in members
    ensures Settled(disk, records[..i + 1], members)
  {
    var known := records[..i + 1];
    forall k | 0 <= k < |known| && Followed(known[k])
      ensures LinkedRoot(disk, known[k].resolved).Some? && LinkedRoot(disk, known[k].resolved).value in members
    {
      if k < i {
        assert records[..i][k] == known[k];
      }
    }
  }

  lemma Led(disk: Disk, records: seq<Record>, i: nat, p: Path)
    requires i < |records| && Followed(records[i]) && LinkedRoot(disk, records[i].resolved).Some?
    requires var linked := LinkedRoot(disk, records[i].resolved).value; p == linked || IsRequisite(disk, linked, p)
    ensures LeadsTo(disk, records, p)
  {
    assert Offers(disk, records[i].resolved, p);
  }

  lemma NothingSettled(disk: Disk, members: set<Path>)
    ensures Settled(disk, [], members)
  {}

  /** What a followed link of a needed root leads to is needed. */
  lemma LinkIsNeeded(disk: Disk, initial: set<Path>, needed: iset<Path>, root: Path, i: nat)
    requires Saturated(disk, initial, needed) && root in needed && disk.contents(root).Some?
    requires i < |disk.contents(root).value| && Followed(disk.contents(root).value[i])
    requires LinkedRoot(disk, disk.contents(root).value[i].resolved).Some?
    ensures var q := LinkedRoot(disk, disk.contents(root).value[i].resolved).value;
      q in needed && (disk.requisites(q).Some? ==> forall p | p in disk.requisites(q).value :: p in needed)
  {
    hide LinkedRoot;
    var records := disk.contents(root).value;
    var q := LinkedRoot(disk, records[i].resolved).value;
    forall p | p == q || IsRequisite(disk, q, p) ensures p in needed {
      Led(disk, records, i, p);
      assert RootLeadsTo(disk, root, p);
    }
  }

  lemma BlameLink(disk: Disk, needed: iset<Path>, budget: EntryBudget, root: Path, i: nat)
    requires root in needed && disk.contents(root).Some? && i < |disk.contents(root).value|
    requires Followed(disk.contents(root).value[i]) && LinkedRoot(disk, disk.contents(root).value[i].resolved).None?
    ensures Blamed(disk, needed, budget, BadLink)
  {
    assert DeadLink(disk, root);
  }

  /** A linked root that came in with all its requisites. */
  lemma NowSupplied(disk: Disk, initial: set<Path>, members: set<Path>, root: Path, i: nat, p: Path)
    requires root in members && disk.contents(root).Some? && i < |disk.contents(root).value|
    requires Followed(disk.contents(root).value[i]) && LinkedRoot(disk, disk.contents(root).value[i].resolved).Some?
    requires var q := LinkedRoot(disk, disk.contents(root).value[i].resolved).value;
      && q in members && disk.requisites(q).Some? && (forall x | x in disk.requisites(q).value :: x in members)
      && (p == q || p in disk.requisites(q).value)
    ensures Supplied(disk, initial, members, p)
  {
    var q := LinkedRoot(disk, disk.contents(root).value[i].resolved).value;
    hide LinkedRoot;
    assert RootLinks(disk, root, q);
    assert Stocked(disk, members, q);
  }

  /** The links of one root: what they lead to is charged and added, with all it requires. */
  method FollowLinks(
    disk: Disk, records: seq<Record>, closure: set<Path>, before: set<Path>, budget: EntryBudget,
    ghost initial: set<Path>, ghost needed: iset<Path>, ghost root: Path)
    returns (refusal: Option<Refusal>, additions: set<Path>)
    requires budget.Valid() && closure <= budget.roots && before <= budget.roots
    requires Saturated(disk, initial, needed) && root in needed && root in closure
    requires disk.contents(root) == Some(records)
    modifies budget
    ensures budget.Valid() && old(budget.roots) <= budget.roots
    ensures before <= additions <= budget.roots
    ensures refusal.None? ==> Settled(disk, records, closure + additions)
    ensures forall p | p in additions - before :: p in needed && Supplied(disk, initial, closure + additions, p)
    ensures refusal.Some? ==> Blamed(disk, needed, budget, refusal.value)
  {
    hide LeadsTo, Settled, LinkedRoot, Supplied, Blamed, Saturated, StoreRoot;
    refusal, additions := None, before;
    NothingSettled(disk, closure + additions);
    for i := 0 to |records|
      invariant budget.Valid() && old(budget.roots) <= budget.roots
      invariant before <= additions <= budget.roots
      invariant Settled(disk, records[..i], closure + additions)
      invariant forall p | p in additions - before :: p in needed && Supplied(disk, initial, closure + additions, p)
    {
      ghost var fewer, already := closure + additions, additions;
      if Followed(records[i]) {
        var linked := LinkedRoot(disk, records[i].resolved);
        if linked.None? {
          BlameLink(disk, needed, budget, root, i);
          return Some(BadLink), additions;
        }
        LinkIsNeeded(disk, initial, needed, root, i);
        if linked.value !in closure && linked.value !in additions {
          var failed, lines := QueryRoots(disk, linked.value, budget, needed);
          if failed.Some? {
            return failed, additions;
          }
          var ok := budget.Root(linked.value, disk.pathBytes(linked.value));
          if !ok {
            RootRefused(disk, needed, budget, linked.value);
            return Some(Quota), additions;
          }
          additions := additions + (set p | p in lines) + {linked.value};
          forall p | p in lines || p == linked.value ensures Supplied(disk, initial, closure + additions, p) {
            NowSupplied(disk, initial, closure + additions, root, i, p);
          }
          forall p | p in already - before ensures Supplied(disk, initial, closure + additions, p) {
            SuppliedGrows(disk, initial, fewer, closure + additions, p);
          }
        }
      }
      SettledNext(disk, records, i, fewer, closure + additions);
    }
    assert records[..|records|] == records;
  }

  /** What holds of closure, additions and catalogue at every point of the worklist. */
  ghost predicate Sound(disk: Disk, initial: set<Path>, closure: set<Path>, additions: set<Path>, catalog: Catalog) {
    && initial <= closure && catalog.Keys <= closure
    && ClosedUnder(disk, catalog, closure + additions)
    && (forall p | p in closure + additions ::
          p in NeededSet(disk, initial) && Supplied(disk, initial, closure + additions, p))
    && (forall root | root in catalog :: disk.contents(root) == Some(catalog[root]))
  }

  lemma SoundParts(disk: Disk, initial: set<Path>, closure: set<Path>, additions: set<Path>, catalog: Catalog)
    requires Sound(disk, initial, closure, additions, catalog)
    ensures catalog.Keys <= closure && forall p | p in closure :: p in NeededSet(disk, initial)
    ensures forall root | root in catalog :: disk.contents(root) == Some(catalog[root])
  {
    hide NeededSet, Supplied, ClosedUnder;
  }

  /** A root and its records join the catalogue, and what its links lead to the additions. */
  lemma SoundNext(
    disk: Disk, initial: set<Path>, closure: set<Path>, additions: set<Path>, more: set<Path>, catalog: Catalog,
    root: Path, records: seq<Record>)
    requires Sound(disk, initial, closure, additions, catalog) && root in closure && additions <= more
    requires disk.contents(root) == Some(records) && Settled(disk, records, closure + more)
    requires forall p | p in more - additions ::
      p in NeededSet(disk, initial) && Supplied(disk, initial, closure + more, p)
    ensures Sound(disk, initial, closure, more, catalog[root := records])
  {
    hide Supplied, Needed, Settled;
    forall p | p in closure + more ensures Supplied(disk, initial, closure + more, p) {
      if p in closure + additions {
        SuppliedGrows(disk, initial, closure + additions, closure + more, p);
      }
    }
    forall x | x in catalog ensures Settled(disk, catalog[x], closure + more) {
      SettledGrows(disk, catalog[x], closure + additions, closure + more);
    }
  }

  lemma SettledGrows(disk: Disk, records: seq<Record>, fewer: set<Path>, members: set<Path>)
    requires Settled(disk, records, fewer) && fewer <= members
    ensures Settled(disk, records, members)
  {
    hide LinkedRoot;
  }

  /** One turn: every pending root is catalogued, and what its links lead to is gathered. */
  method Turn(
    disk: Disk, ghost initial: set<Path>, closure: set<Path>, known: Catalog, knownOrder: seq<Path>, knownSize: nat,
    budget: EntryBudget)
    returns (refusal: Option<Refusal>, catalog: Catalog, order: seq<Path>, size: nat, additions: set<Path>)
    requires Accounted(knownOrder, known, knownSize) && knownSize <= LIMIT
    requires budget.Valid() && closure <= budget.roots && Sound(disk, initial, closure, {}, known)
    modifies budget
    ensures budget.Valid() && old(budget.roots) <= budget.roots
    ensures additions <= budget.roots
    ensures refusal.None? ==> catalog.Keys == closure && Sound(disk, initial, closure, additions, catalog)
    ensures refusal.None? ==> Accounted(order, catalog, size) && size <= LIMIT
    ensures refusal.Some? ==> Blamed(disk, NeededSet(disk, initial), budget, refusal.value)
  {
    hide Accounted, Blamed, Supplied, Saturated, NeededSet, ClosedUnder, Sound;
    ghost var needed := NeededSet(disk, initial);
    NeededSaturated(disk, initial);
    refusal, catalog, order, size, additions := None, known, knownOrder, knownSize, {};
    var pending := closure - catalog.Keys;
    while pending != {}
      invariant budget.Valid() && old(budget.roots) <= budget.roots
      invariant closure <= budget.roots && additions <= budget.roots
      invariant pending == closure - catalog.Keys
      invariant Sound(disk, initial, closure, additions, catalog)
      invariant Accounted(order, catalog, size) && size <= LIMIT
      decreases pending
    {
      SoundParts(disk, initial, closure, additions, catalog);
      var root :| root in pending;
      pending := pending - {root};
      var failed, records, used := Entries(disk, root, budget, needed);
      if failed.Some? {
        return failed, catalog, order, size, additions;
      }
      size := size + used;
      if size > LIMIT {
        AllTooLarge(disk, needed, budget, order, catalog, size - used, root);
        return Some(TooLarge), catalog, order, size, additions;
      }
      var refused, more := FollowLinks(disk, records, closure, additions, budget, initial, needed, root);
      if refused.Some? {
        return refused, catalog, order, size, additions;
      }
      SoundNext(disk, initial, closure, additions, more, catalog, root, records);
      AccountedNext(order, catalog, size - used, root, records);
      KeysNext(catalog, root, records, closure);
      catalog := catalog[root := records];
      order := order + [root];
      additions := more;
    }
    SoundParts(disk, initial, closure, additions, catalog);
    AllCatalogued(catalog, closure);
  }

  lemma KeysNext(catalog: Catalog, root: Path, records: seq<Record>, closure: set<Path>)
    ensures closure - catalog[root := records].Keys == closure - catalog.Keys - {root}
  {
  }

  lemma AllCatalogued(catalog: Catalog, closure: set<Path>)
    requires closure - catalog.Keys == {} && catalog.Keys <= closure
    ensures catalog.Keys == closure
  {
    assert forall p | p in closure :: p in closure - catalog.Keys || p in catalog.Keys;
  }

  /** The second pass, link by link. */
  method VerifyPass(disk: Disk, catalog: Catalog, closure: set<Path>) returns (escapes: bool)
    ensures escapes <==> exists root, i ::
      root in catalog && 0 <= i < |catalog[root]| && Escapes(disk, closure, catalog[root][i])
  {
    var left := catalog.Keys;
    while left != {}
      invariant left <= catalog.Keys
      invariant forall root, i | root in catalog.Keys - left && 0 <= i < |catalog[root]| ::
        !Escapes(disk, closure, catalog[root][i])
    {
      var root :| root in left;
      left := left - {root};
      for i := 0 to |catalog[root]|
        invariant forall k | 0 <= k < i :: !Escapes(disk, closure, catalog[root][k])
      {
        if Escapes(disk, closure, catalog[root][i]) {
          return true;
        }
      }
    }
    return false;
  }

  predicate Escapes(disk: Disk, closure: set<Path>, record: Record) {
    Followed(record) && !exists selected :: selected in closure && Reaches(disk, selected, record.resolved)
  }

  /** A settled link is never found to escape. */
  lemma SettledNeverEscapes(disk: Disk, closure: set<Path>, records: seq<Record>, i: nat)
    requires Treelike(disk) && i < |records| && Settled(disk, records, closure)
    ensures !Escapes(disk, closure, records[i])
  {
    if Followed(records[i]) {
      var target := records[i].resolved;
      var selected := LinkedRoot(disk, target).value;
      assert selected == Path(target.parts[..3]);
      if |target.parts| == 3 {
        assert target.parts[..3] == target.parts;
      }
      assert Reaches(disk, selected, target);
    }
  }

  lemma InitialNeeded(disk: Disk, initial: set<Path>, p: Path)
    requires p in initial
    ensures p in NeededSet(disk, initial)
  {}

  lemma SoundStart(disk: Disk, initial: set<Path>)
    ensures Sound(disk, initial, initial, {}, map[]) && Accounted([], map[], 0)
  {}

  lemma SoundGrows(disk: Disk, initial: set<Path>, closure: set<Path>, additions: set<Path>, catalog: Catalog)
    requires Sound(disk, initial, closure, additions, catalog)
    ensures Sound(disk, initial, closure + additions, {}, catalog)
  {
    assert closure + additions + {} == closure + additions;
  }

  /** With nothing pending the worklist has done what it promises, and no link escapes. */
  lemma SoundAtEnd(disk: Disk, initial: set<Path>, closure: set<Path>, catalog: Catalog)
    requires Treelike(disk) && Sound(disk, initial, closure, {}, catalog) && closure - catalog.Keys == {}
    ensures Complete(disk, initial, closure, catalog)
    ensures forall root, i | root in catalog && 0 <= i < |catalog[root]| :: !Escapes(disk, closure, catalog[root][i])
  {
    assert closure + {} == closure && catalog.Keys == closure;
    forall root, i | root in catalog && 0 <= i < |catalog[root]| ensures !Escapes(disk, closure, catalog[root][i]) {
      SettledNeverEscapes(disk, closure, catalog[root], i);
    }
  }

  /** Catalogued as found on disk, closed under followed links, needed and supplied throughout. */
  ghost predicate Complete(disk: Disk, initial: set<Path>, closure: set<Path>, catalog: Catalog) {
    && initial <= closure && catalog.Keys == closure
    && ClosedUnder(disk, catalog, closure)
    && (forall p | p in closure :: Needed(disk, initial, p) && disk.contents(p) == Some(catalog[p]))
    && (forall p | p in closure :: Supplied(disk, initial, closure, p))
  }

  lemma SoundBounds(disk: Disk, initial: set<Path>, closure: set<Path>, catalog: Catalog, roots: set<Path>)
    requires Sound(disk, initial, closure, {}, catalog) && closure <= roots
    ensures |catalog.Keys| <= |closure| <= |roots|
    ensures |catalog.Keys| == |closure| ==> closure - catalog.Keys == {}
  {
    SubsetSize(catalog.Keys, closure);
    SubsetSize(closure, roots);
  }

  /**
   `closure_catalog`.  It always returns; every refusal has its cause in something
   needed and never in the second pass; and an accepted closure is catalogued, closed,
   needed and supplied throughout.
   */
  method ClosureCatalog(disk: Disk, initial: set<Path>, budget: EntryBudget)
    returns (refusal: Option<Refusal>, catalog: Catalog, order: seq<Path>, closure: set<Path>)
    requires budget.Valid() && Treelike(disk)
    modifies budget
    ensures budget.Valid()
    ensures refusal.Some? ==> Blamed(disk, NeededSet(disk, initial), budget, refusal.value)
    ensures refusal.None? ==>
      Complete(disk, initial, closure, catalog) && closure <= budget.roots && |closure| <= budget.maxRoots
    ensures refusal.None? ==> exists size :: Accounted(order, catalog, size) && size <= LIMIT
  {
    hide Sound, Complete, Escapes, Treelike, Accounted, Blamed, NeededSet;
    catalog, order, closure, refusal := map[], [], initial, None;
    var size: nat, left := 0, initial;
    while left != {}
      invariant budget.Valid() && left <= initial && initial - left <= budget.roots
    {
      var root :| root in left;
      left := left - {root};
      var ok := budget.Root(root, disk.pathBytes(root));
      if !ok {
        InitialNeeded(disk, initial, root);
        RootRefused(disk, NeededSet(disk, initial), budget, root);
        return Some(Quota), catalog, order, closure;
      }
    }
    SoundStart(disk, initial);
    while closure - catalog.Keys != {}
      invariant budget.Valid() && closure <= budget.roots
      invariant Sound(disk, initial, closure, {}, catalog)
      invariant Accounted(order, catalog, size) && size <= LIMIT
      decreases budget.maxRoots - |catalog.Keys|
    {
      SoundBounds(disk, initial, closure, catalog, budget.roots);
      var refused, more, longer, total, additions := Turn(disk, initial, closure, catalog, order, size, budget);
      if refused.Some? {
        return refused, catalog, order, closure;
      }
      SoundGrows(disk, initial, closure, additions, more);
      SubsetSize(closure, budget.roots);
      catalog, order, size, closure := more, longer, total, closure + additions;
    }
    SoundAtEnd(disk, initial, closure, catalog);
    SoundBounds(disk, initial, closure, catalog, budget.roots);
    var escapes := VerifyPass(disk, catalog, closure);
    if escapes {
      refusal := Some(EscapesClosure);   // dead: no settled link escapes
    }
  }
}
