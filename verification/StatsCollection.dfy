/** The report collection of api/legacy_stats_types.cc: a list that owns its reports and
    must behave as a map keyed by report id.

    A report is an address and an id; addresses of new reports are chosen by the allocator
    and therefore parameters.  `deleted` lists the reports the collection has deleted, in
    order, and the ghost fields record which reports ever came under its control and which
    have been detached from it. */
module StatsReports {
  import opened Basics

  // ---------------------------------------------------------------------
  // Ids
  // ---------------------------------------------------------------------

  datatype StatsType =
    | Session | Bwe | RemoteSsrc | Ssrc | Track | IceLocalCandidate | IceRemoteCandidate
    | Transport | ComponentStats | CandidatePair | Certificate | DataChannel

  datatype Direction = Send | Receive

  /** One constructor for each class derived from IdBase. */
  datatype Id =
    | BandwidthEstimationId
    | TypedId(statsType: StatsType, text: string)
    | TypedIntId(statsType: StatsType, number: int)
    | IdWithDirection(statsType: StatsType, text: string, direction: Direction)
    | CandidateId(local: bool, text: string)
    | ComponentId(contentName: string, component: int)
    | CandidatePairId(contentName: string, component: int, index: int)

  datatype IdClass =
    | BandwidthEstimationClass | TypedClass | TypedIntClass | DirectionClass
    | CandidateClass | ComponentClass | CandidatePairClass

  function ClassOf(id: Id): IdClass {
    match id
    case BandwidthEstimationId => BandwidthEstimationClass
    case TypedId(_, _) => TypedClass
    case TypedIntId(_, _) => TypedIntClass
    case IdWithDirection(_, _, _) => DirectionClass
    case CandidateId(_, _) => CandidateClass
    case ComponentId(_, _) => ComponentClass
    case CandidatePairId(_, _, _) => CandidatePairClass
  }

  function TypeOf(id: Id): StatsType {
    match id
    case BandwidthEstimationId => Bwe
    case TypedId(t, _) => t
    case TypedIntId(t, _) => t
    case IdWithDirection(t, _, _) => t
    case CandidateId(local, _) => if local then IceLocalCandidate else IceRemoteCandidate
    case ComponentId(_, _) => ComponentStats
    case CandidatePairId(_, _, _) => CandidatePair
  }

  /** The type each class of ids gives to its base. */
  lemma TypesOfIds(t: StatsType, text: string, n: int, d: Direction, k: int)
    ensures TypeOf(BandwidthEstimationId) == Bwe
    ensures TypeOf(TypedId(t, text)) == TypeOf(TypedIntId(t, n)) == TypeOf(IdWithDirection(t, text, d)) == t
    ensures TypeOf(CandidateId(true, text)) == IceLocalCandidate
    ensures TypeOf(CandidateId(false, text)) == IceRemoteCandidate
    ensures TypeOf(ComponentId(text, n)) == ComponentStats && TypeOf(CandidatePairId(text, n, k)) == CandidatePair
  {
  }

  /** Whether the static_cast in a.Equals(b) is defined: b's class is a's or derived from it. */
  predicate Castable(a: Id, b: Id) {
    match a
    case BandwidthEstimationId => true
    case TypedId(_, _) => b.TypedId? || b.IdWithDirection? || b.CandidateId?
    case TypedIntId(_, _) => b.TypedIntId?
    case IdWithDirection(_, _, _) => b.IdWithDirection?
    case CandidateId(_, _) => b.TypedId? || b.IdWithDirection? || b.CandidateId?
    case ComponentId(_, _) => b.ComponentId? || b.CandidatePairId?
    case CandidatePairId(_, _, _) => b.CandidatePairId?
  }

  predicate Comparable(a: Id, b: Id) {
    TypeOf(a) == TypeOf(b) ==> Castable(a, b)
  }

  /** a.Equals(b), the override of a's class; IdBase::Equals compares the types first. */
  predicate Equals(a: Id, b: Id)
    requires Comparable(a, b)
  {
    TypeOf(a) == TypeOf(b) &&
    match a
    case BandwidthEstimationId => true
    case TypedId(_, text) => b.text == text
    case TypedIntId(_, number) => b.number == number
    case IdWithDirection(_, text, direction) => b.text == text && b.direction == direction
    case CandidateId(_, text) => b.text == text
    case ComponentId(name, component) => b.component == component && b.contentName == name
    case CandidatePairId(name, component, index) =>
      b.component == component && b.contentName == name && b.index == index
  }

  /** A convention that fixes one id class for each type of report. */
  type Scheme = StatsType -> IdClass

  predicate Conforms(scheme: Scheme, id: Id) {
    ClassOf(id) == scheme(TypeOf(id))
  }

  /** Under one class per type every comparison is defined and Equals is equality. */
  lemma EqualsIsEquality(scheme: Scheme, a: Id, b: Id)
    requires Conforms(scheme, a) && Conforms(scheme, b)
    ensures Comparable(a, b)
    ensures Equals(a, b) <==> a == b
  {
    if TypeOf(a) == TypeOf(b) {
      assert ClassOf(a) == ClassOf(b);
    }
  }

  /** What Equals looks at: a candidate id is a TypedId of its type. */
  function Seen(id: Id): Id {
    if id.CandidateId? then TypedId(TypeOf(id), id.text) else id
  }

  /** Comparing two ids is defined both ways if and only if their types differ or they are of
      one class, where TypedId and CandidateId, which inherits its Equals, are one. */
  lemma ComparableIff(a: Id, b: Id)
    ensures Comparable(a, b) && Comparable(b, a) <==>
            (TypeOf(a) == TypeOf(b) ==> ClassOf(Seen(a)) == ClassOf(Seen(b)))
    ensures Comparable(a, b) && Comparable(b, a) ==> (Equals(a, b) <==> Seen(a) == Seen(b))
  {
  }

  ghost predicate AllComparable(ids: set<Id>) {
    forall a, b :: a in ids && b in ids ==> Comparable(a, b)
  }

  /** Equals is defined on all pairs of the ids, reflexive, symmetric and transitive. */
  ghost predicate IsEquivalence(ids: set<Id>) {
    && AllComparable(ids)
    && (forall a :: a in ids ==> Equals(a, a))
    && (forall a, b :: a in ids && b in ids && Equals(a, b) ==> Equals(b, a))
    && (forall a, b, c :: a in ids && b in ids && c in ids && Equals(a, b) && Equals(b, c) ==> Equals(a, c))
  }

  /** Reports of one type have ids of one class, up to candidate ids. */
  ghost predicate OneClassPerType(ids: set<Id>) {
    forall a, b :: a in ids && b in ids && TypeOf(a) == TypeOf(b) ==> ClassOf(Seen(a)) == ClassOf(Seen(b))
  }

  /** Equals is an equivalence on a set of ids exactly when each type of report among them has
      ids of one class. */
  lemma EquivalenceIff(ids: set<Id>)
    ensures IsEquivalence(ids) <==> OneClassPerType(ids)
  {
    hide Comparable, Equals, Seen, ClassOf, TypeOf;
    forall a, b
      ensures (Comparable(a, b) && Comparable(b, a) <==>
                (TypeOf(a) == TypeOf(b) ==> ClassOf(Seen(a)) == ClassOf(Seen(b))))
              && (Comparable(a, b) && Comparable(b, a) ==> (Equals(a, b) <==> Seen(a) == Seen(b)))
    {
      ComparableIff(a, b);
    }
    if OneClassPerType(ids) {
      assert AllComparable(ids);
    }
  }

  /** A plain id equals two directed ids of its type that differ from each other; comparing a
      directed one with it the other way round is an undefined cast. */
  lemma MixedClassesAreNotAnEquivalence(t: StatsType, text: string)
    ensures var plain := TypedId(t, text);
            var send, receive := IdWithDirection(t, text, Send), IdWithDirection(t, text, Receive);
            && Comparable(plain, send) && Comparable(plain, receive) && Comparable(send, receive)
            && Equals(plain, send) && Equals(plain, receive) && !Equals(send, receive)
            && !Comparable(send, plain) && !Comparable(receive, plain)
  {
  }

  // ---------------------------------------------------------------------
  // Lists as maps
  // ---------------------------------------------------------------------

  datatype Report = Report(address: nat, id: Id)

  ghost predicate AllConform(scheme: Scheme, list: seq<Report>) {
    forall i :: 0 <= i < |list| ==> Conforms(scheme, list[i].id)
  }

  ghost predicate DistinctIds(list: seq<Report>) {
    forall i, j :: 0 <= i < j < |list| ==> list[i].id != list[j].id
  }

  /** The position of an id in the list, or the length of the list. */
  function IndexOf(list: seq<Report>, id: Id): (k: nat)
    ensures k <= |list|
    ensures k < |list| ==> list[k].id == id
    ensures forall i :: 0 <= i < k ==> list[i].id != id
  {
    if list == [] then 0
    else if list[0].id == id then 0
    else
      var k := IndexOf(list[1..], id);
      assert forall i :: 0 < i < |list| ==> list[i] == list[1..][i - 1];
      1 + k
  }

  function Lookup(list: seq<Report>, id: Id): Option<Report> {
    if IndexOf(list, id) == |list| then None else Some(list[IndexOf(list, id)])
  }

  /** Put a report in the place of the one with its id, or at the end. */
  function Put(list: seq<Report>, r: Report): seq<Report> {
    if IndexOf(list, r.id) == |list| then list + [r] else list[IndexOf(list, r.id) := r]
  }

  function Merged(list: seq<Report>, collection: seq<Report>): seq<Report> {
    if collection == [] then list
    else Put(Merged(list, collection[..|collection| - 1]), collection[|collection| - 1])
  }

  /** The last report with an id in a list, duplicates allowed. */
  function LastWith(collection: seq<Report>, id: Id): Option<Report> {
    if collection == [] then None
    else if collection[|collection| - 1].id == id then Some(collection[|collection| - 1])
    else LastWith(collection[..|collection| - 1], id)
  }

  function Ids(list: seq<Report>): seq<Id> {
    seq(|list|, i requires 0 <= i < |list| => list[i].id)
  }

  /** Ids of a collection that a list of ids lacks, each at its first occurrence. */
  function NewIds(ids: seq<Id>, collection: seq<Report>): seq<Id> {
    if collection == [] then []
    else
      var before := NewIds(ids, collection[..|collection| - 1]);
      var id := collection[|collection| - 1].id;
      if id in ids || id in before then before else before + [id]
  }

  lemma IndexIsUnique(list: seq<Report>, id: Id, k: nat)
    requires k < |list| && list[k].id == id
    requires forall i :: 0 <= i < k ==> list[i].id != id
    ensures IndexOf(list, id) == k
  {
  }

  lemma NoIndex(list: seq<Report>, id: Id)
    requires forall i :: 0 <= i < |list| ==> list[i].id != id
    ensures IndexOf(list, id) == |list|
  {
  }

  lemma PutKeepsDistinct(list: seq<Report>, r: Report)
    requires DistinctIds(list)
    ensures DistinctIds(Put(list, r))
  {
  }

  lemma PutLooksUp(list: seq<Report>, r: Report, id: Id)
    requires DistinctIds(list)
    ensures Lookup(Put(list, r), id) == if id == r.id then Some(r) else Lookup(list, id)
  {
    var k, j, after := IndexOf(list, r.id), IndexOf(list, id), Put(list, r);
    if id == r.id {
      IndexIsUnique(after, id, k);
    } else if j == |list| {
      NoIndex(after, id);
    } else {
      IndexIsUnique(after, id, j);
    }
  }

  lemma PutIds(list: seq<Report>, r: Report)
    ensures Ids(Put(list, r)) == if r.id in Ids(list) then Ids(list) else Ids(list) + [r.id]
  {
    var k := IndexOf(list, r.id);
    if k < |list| {
      assert Ids(list)[k] == r.id;
    } else {
      assert forall i :: 0 <= i < |list| ==> Ids(list)[i] == list[i].id != r.id;
    }
  }

  /** Merging keeps ids distinct, and a lookup afterwards gives the last merged report with
      the id, else what the list held: a right-biased union of maps. */
  lemma {:induction false} MergeIsRightBiasedUnion(list: seq<Report>, collection: seq<Report>, id: Id)
    requires DistinctIds(list)
    ensures DistinctIds(Merged(list, collection))
    ensures Lookup(Merged(list, collection), id) ==
            if LastWith(collection, id).Some? then LastWith(collection, id) else Lookup(list, id)
    decreases |collection|
  {
    if collection != [] {
      var n := |collection| - 1;
      MergeIsRightBiasedUnion(list, collection[..n], id);
      PutKeepsDistinct(Merged(list, collection[..n]), collection[n]);
      PutLooksUp(Merged(list, collection[..n]), collection[n], id);
    }
  }

  lemma AppendIfNew(ids: seq<Id>, before: seq<Id>, id: Id)
    ensures (if id in ids + before then ids + before else ids + before + [id]) ==
            ids + if id in ids || id in before then before else before + [id]
  {
    assert id in ids + before <==> id in ids || id in before;
    assert ids + before + [id] == ids + (before + [id]);
  }

  /** Existing ids keep their positions and new ids are appended in order of first occurrence. */
  lemma {:induction false} MergeKeepsPositions(list: seq<Report>, collection: seq<Report>)
    ensures Ids(Merged(list, collection)) == Ids(list) + NewIds(Ids(list), collection)
    decreases |collection|
  {
    hide Ids, Put;
    if collection == [] {
      assert Ids(list) + [] == Ids(list);
    } else {
      var n := |collection| - 1;
      MergeKeepsPositions(list, collection[..n]);
      PutIds(Merged(list, collection[..n]), collection[n]);
      AppendIfNew(Ids(list), NewIds(Ids(list), collection[..n]), collection[n].id);
    }
  }

  /** Merging a detached list into an empty collection restores it. */
  lemma {:induction false} MergeIntoEmptyRestores(list: seq<Report>)
    requires DistinctIds(list)
    ensures Merged([], list) == list
  {
    if list != [] {
      var n := |list| - 1;
      MergeIntoEmptyRestores(list[..n]);
      NoIndex(list[..n], list[n].id);
      assert list == list[..n] + [list[n]];
    }
  }

  // ---------------------------------------------------------------------
  // The collection
  // ---------------------------------------------------------------------

  class StatsCollection {
    ghost const scheme: Scheme
    var list: seq<Report>
    var deleted: seq<Report>
    ghost var introduced: set<Report>
    ghost var detached: set<Report>

    /** Every report that came under the collection's control is in exactly one of the list,
        the detached reports and the deleted ones, and once only. */
    ghost predicate Conserved()
      reads this
    {
      multiset(list) + multiset(detached) + multiset(deleted) == multiset(introduced)
    }

    ghost predicate Valid()
      reads this
    {
      AllConform(scheme, list) && DistinctIds(list) && Conserved()
    }

    constructor (ghost scheme: Scheme)
      ensures Valid() && list == [] && deleted == [] && introduced == {} && detached == {}
      ensures this.scheme == scheme
    {
      this.scheme := scheme;
      list, deleted, introduced, detached := [], [], {}, {};
    }

    /** absl::c_find_if with the id comparison: r->id()->Equals(id) for each report r. */
    method FindIndex(id: Id) returns (k: nat)
      requires AllConform(scheme, list) && Conforms(scheme, id)
      ensures k == IndexOf(list, id)
    {
      k := 0;
      while k < |list|
        invariant k <= |list|
        invariant forall i :: 0 <= i < k ==> list[i].id != id
      {
        EqualsIsEquality(scheme, list[k].id, id);
        if Equals(list[k].id, id) {
          return;
        }
        k := k + 1;
      }
    }

    method Find(id: Id) returns (r: Option<Report>)
      requires Valid() && Conforms(scheme, id)
      ensures r == Lookup(list, id)
    {
      var k := FindIndex(id);
      r := if k == |list| then None else Some(list[k]);
    }

    /** The source asserts that no report with the id exists. */
    method InsertNew(id: Id, address: nat) returns (r: Report)
      requires Valid() && Conforms(scheme, id) && Lookup(list, id) == None
      requires Report(address, id) !in introduced
      modifies this
      ensures Valid() && r == Report(address, id) && list == old(list) + [r]
      ensures deleted == old(deleted) && detached == old(detached) && introduced == old(introduced) + {r}
    {
      r := Report(address, id);
      MoveConserves(list, detached, deleted, introduced, r);
      assert deleted + [] == deleted;
      list := list + [r];
      introduced := introduced + {r};
    }

    method FindOrAddNew(id: Id, address: nat) returns (r: Report)
      requires Valid() && Conforms(scheme, id) && Report(address, id) !in introduced
      modifies this
      ensures Valid() && Lookup(list, id) == Some(r)
      ensures Lookup(old(list), id) == Some(r) ==> list == old(list) && introduced == old(introduced)
      ensures Lookup(old(list), id) == None ==> list == old(list) + [r] && introduced == old(introduced) + {r}
      ensures deleted == old(deleted) && detached == old(detached)
    {
      var found := Find(id);
      if found.Some? {
        return found.value;
      }
      r := InsertNew(id, address);
      IndexIsUnique(list, id, |list| - 1);
    }

    /** The replacement takes its id from the report it replaces. */
    method ReplaceOrAddNew(id: Id, address: nat) returns (r: Report)
      requires Valid() && Conforms(scheme, id) && Report(address, id) !in introduced
      modifies this
      ensures Valid() && r == Report(address, id) && list == Put(old(list), r)
      ensures deleted == old(deleted) + ReplacedBy(old(list), r)
      ensures detached == old(detached) && introduced == old(introduced) + {r}
    {
      var k := FindIndex(id);
      if k != |list| {
        r := Report(address, list[k].id);
        PutKeepsDistinct(list, r);
        MoveConserves(list, detached, deleted, introduced, r);
        assert detached - {r} == detached;
        deleted := deleted + [list[k]];
        list := list[k := r];
        introduced := introduced + {r};
        return;
      }
      r := InsertNew(id, address);
    }

    method DetachCollection() returns (collection: seq<Report>)
      requires Valid()
      modifies this
      ensures Valid() && collection == old(list) && list == []
      ensures deleted == old(deleted) && introduced == old(introduced)
      ensures detached == old(detached) + Members(collection)
    {
      collection := list;
      ListIsSet(list, detached, deleted, introduced);
      detached := detached + Members(list);
      list := [];
    }

    /** One round of the loop of MergeCollection. */
    method MergeReport(report: Report)
      requires Valid() && Conforms(scheme, report.id)
      requires report in detached || report !in introduced
      modifies this
      ensures Valid() && list == Put(old(list), report)
      ensures deleted == old(deleted) + ReplacedBy(old(list), report)
      ensures introduced == old(introduced) + {report} && detached == old(detached) - {report}
    {
      PutKeepsDistinct(list, report);
      MoveConserves(list, detached, deleted, introduced, report);
      var k := FindIndex(report.id);
      if k == |list| {
        list := list + [report];
        assert deleted + [] == deleted;
      } else {
        deleted := deleted + [list[k]];
        list := list[k := report];
      }
      introduced := introduced + {report};
      detached := detached - {report};
    }

    /** Merged-in reports are live, distinct and not already held: each was detached earlier
        or is new to the collection. */
    method MergeCollection(collection: seq<Report>)
      requires Valid() && AllConform(scheme, collection)
      requires forall i, j :: 0 <= i < j < |collection| ==> collection[i] != collection[j]
      requires forall r :: r in collection ==> r in detached || r !in introduced
      modifies this
      ensures Valid() && list == Merged(old(list), collection)
      ensures deleted == old(deleted) + Replaced(old(list), collection)
      ensures introduced == old(introduced) + Members(collection)
      ensures detached == old(detached) - Members(collection)
    {
      hide Valid, Merged, Replaced, Members, Put, ReplacedBy;
      MergeStart(old(list), collection);
      for i := 0 to |collection|
        invariant Valid()
        invariant list == Merged(old(list), collection[..i])
        invariant deleted == old(deleted) + Replaced(old(list), collection[..i])
        invariant introduced == old(introduced) + Members(collection[..i])
        invariant detached == old(detached) - Members(collection[..i])
      {
        MergeStep(old(list), collection, i);
        MergeReport(collection[i]);
      }
      assert collection[..|collection|] == collection;
    }

    /** ~StatsCollection: every report still held is deleted. */
    method Destruct()
      requires Valid()
      modifies this
      ensures deleted == old(deleted) + old(list) && list == []
      ensures introduced == old(introduced) && detached == old(detached) && Conserved()
    {
      for i := 0 to |list|
        invariant list == old(list) && introduced == old(introduced) && detached == old(detached)
        invariant deleted == old(deleted) + list[..i]
      {
        deleted := deleted + [list[i]];
      }
      list := [];
    }
  }

  ghost function Members(list: seq<Report>): set<Report> {
    set r | r in list
  }

  /** The report a new one displaces. */
  function ReplacedBy(list: seq<Report>, r: Report): seq<Report> {
    if Lookup(list, r.id).Some? then [Lookup(list, r.id).value] else []
  }

  /** The reports a merge displaces, in order. */
  function Replaced(list: seq<Report>, collection: seq<Report>): seq<Report> {
    if collection == [] then []
    else
      var n := |collection| - 1;
      Replaced(list, collection[..n]) + ReplacedBy(Merged(list, collection[..n]), collection[n])
  }

  lemma MergeStart(list: seq<Report>, collection: seq<Report>)
    ensures Merged(list, collection[..0]) == list && Replaced(list, collection[..0]) == []
    ensures Members(collection[..0]) == {}
  {
  }

  lemma MergeStep(list: seq<Report>, collection: seq<Report>, i: nat)
    requires i < |collection|
    requires forall i, j :: 0 <= i < j < |collection| ==> collection[i] != collection[j]
    ensures var before, r := collection[..i], collection[i];
            && Merged(list, collection[..i + 1]) == Put(Merged(list, before), r)
            && Replaced(list, collection[..i + 1]) == Replaced(list, before) + ReplacedBy(Merged(list, before), r)
            && Members(collection[..i + 1]) == Members(before) + {r}
            && r !in Members(before)
  {
    assert collection[..i + 1][..i] == collection[..i];
    assert collection[..i + 1] == collection[..i] + [collection[i]];
  }

  lemma ReplaceConserves(list: seq<Report>, k: nat, r: Report)
    requires k < |list|
    ensures multiset(list[k := r]) + multiset{list[k]} == multiset(list) + multiset{r}
  {
    assert list == list[..k] + [list[k]] + list[k + 1..];
    assert list[k := r] == list[..k] + [r] + list[k + 1..];
  }

  lemma ListIsSet(list: seq<Report>, detached: set<Report>, deleted: seq<Report>, introduced: set<Report>)
    requires multiset(list) + multiset(detached) + multiset(deleted) == multiset(introduced)
    ensures multiset(detached + Members(list)) == multiset(detached) + multiset(list)
  {
    forall r: Report
      ensures multiset(detached + Members(list))[r] == multiset(detached)[r] + multiset(list)[r]
    {
      assert multiset(introduced)[r] <= 1;
      assert r in list <==> multiset(list)[r] > 0;
    }
  }

  lemma PutConserves(list: seq<Report>, r: Report)
    ensures multiset(Put(list, r)) + multiset(ReplacedBy(list, r)) == multiset(list) + multiset{r}
  {
    var k := IndexOf(list, r.id);
    if k < |list| {
      ReplaceConserves(list, k, r);
    }
  }

  lemma PoolConserves(detached: set<Report>, introduced: set<Report>, r: Report)
    requires detached <= introduced
    requires r in detached || r !in introduced
    ensures multiset(detached) + multiset(introduced + {r}) ==
            multiset(detached - {r}) + multiset(introduced) + multiset{r}
    ensures r !in introduced ==> r !in detached
  {
    if r in detached {
      assert introduced + {r} == introduced;
      assert multiset(detached) == multiset(detached - {r}) + multiset{r};
    } else {
      assert detached - {r} == detached;
      assert multiset(introduced + {r}) == multiset(introduced) + multiset{r};
    }
  }

  lemma DetachedIntroduced(list: seq<Report>, detached: set<Report>, deleted: seq<Report>, introduced: set<Report>)
    requires multiset(list) + multiset(detached) + multiset(deleted) == multiset(introduced)
    ensures detached <= introduced
  {
    forall r | r in detached
      ensures r in introduced
    {
      assert r in multiset(introduced);
    }
  }

  lemma BooksBalance(put: multiset<Report>, displaced: multiset<Report>, list: multiset<Report>,
                     pool: multiset<Report>, pool': multiset<Report>, deleted: multiset<Report>,
                     all: multiset<Report>, all': multiset<Report>, r: multiset<Report>)
    requires put + displaced == list + r
    requires pool + all' == pool' + all + r
    requires list + pool + deleted == all
    ensures put + pool' + (deleted + displaced) == all'
  {
    forall x: Report
      ensures (put + pool' + (deleted + displaced))[x] == all'[x]
    {
      assert (put + displaced)[x] == (list + r)[x];
      assert (pool + all')[x] == (pool' + all + r)[x];
      assert (list + pool + deleted)[x] == all[x];
    }
  }

  /** Taking in a report that was detached or is new keeps the books balanced. */
  lemma MoveConserves(list: seq<Report>, detached: set<Report>, deleted: seq<Report>, introduced: set<Report>,
                      r: Report)
    requires multiset(list) + multiset(detached) + multiset(deleted) == multiset(introduced)
    requires r in detached || r !in introduced
    ensures multiset(Put(list, r)) + multiset(detached - {r}) + multiset(deleted + ReplacedBy(list, r)) ==
            multiset(introduced + {r})
    ensures r !in introduced ==> r !in detached
  {
    hide Put, ReplacedBy;
    DetachedIntroduced(list, detached, deleted, introduced);
    PutConserves(list, r);
    PoolConserves(detached, introduced, r);
    assert multiset(deleted + ReplacedBy(list, r)) == multiset(deleted) + multiset(ReplacedBy(list, r));
    BooksBalance(multiset(Put(list, r)), multiset(ReplacedBy(list, r)), multiset(list),
                 multiset(detached), multiset(detached - {r}), multiset(deleted),
                 multiset(introduced), multiset(introduced + {r}), multiset{r});
  }

  /** What conservation says of one report: it is held, detached or deleted, exactly one of
      these, and not twice. */
  lemma ExactlyOnePlace(c: StatsCollection, r: Report)
    requires c.Conserved()
    ensures r in c.introduced <==>
              multiset(c.list)[r] + multiset(c.detached)[r] + multiset(c.deleted)[r] == 1
    ensures r !in c.introduced <==> r !in c.list && r !in c.detached && r !in c.deleted
    ensures multiset(c.deleted)[r] <= 1
  {
    assert multiset(c.introduced)[r] == multiset(c.list)[r] + multiset(c.detached)[r] + multiset(c.deleted)[r];
    assert r in c.list <==> multiset(c.list)[r] > 0;
    assert r in c.deleted <==> multiset(c.deleted)[r] > 0;
  }
}
