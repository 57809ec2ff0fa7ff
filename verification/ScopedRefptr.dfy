/** scoped_refptr of api/scoped_refptr.h over objects with the counter of
    api/ref_counted_base.h, on one thread.

    A `Memory` is what these operations act on: the pointer inside every live handle, the
    counter of every object, the objects destroyed, and the references that callers of
    release() own.  Handles and objects are addresses, so two arguments of an operation may
    be the same handle or point at the same object.

    `Accounts` is the invariant: a count is the handles pointing at the object plus the
    references handed out, and no handle dangles.  Every operation keeps it, destroys
    exactly the objects whose references it takes from some to none, and appends the
    memory it leaves to the heap's history, so that any sequence of operations is a
    `Trace`. */
module ScopedRefptrs {
  import opened Basics

  datatype Pointer = Null | To(target: Object)

  type Handle = nat
  type Object = nat

  // ---------------------------------------------------------------------
  // Counting handles
  // ---------------------------------------------------------------------

  ghost function Holders(pointers: map<Handle, Pointer>, o: Object): set<Handle> {
    set h | h in pointers && pointers[h] == To(o)
  }

  /** The number of handles pointing at an object. */
  ghost function Pointing(pointers: map<Handle, Pointer>, o: Object): nat {
    |Holders(pointers, o)|
  }

  ghost function One(p: Pointer, o: Object): nat {
    if p == To(o) then 1 else 0
  }

  /** The reference a pointer stands for. */
  function Bag(p: Pointer): multiset<Object> {
    if p.To? then multiset{p.target} else multiset{}
  }

  lemma BagsCount(handedOut: multiset<Object>, given: Pointer, taken: Pointer)
    requires given.To? ==> given.target in handedOut
    ensures forall o :: (handedOut - Bag(given) + Bag(taken))[o] == handedOut[o] - One(given, o) + One(taken, o)
  {
  }

  lemma OthersHold(pointers: map<Handle, Pointer>, h: Handle, o: Object)
    ensures |Holders(pointers, o) - {h}| ==
            Pointing(pointers, o) - if h in pointers then One(pointers[h], o) else 0
  {
    if h in pointers && pointers[h] == To(o) {
      assert h in Holders(pointers, o);
    } else {
      assert Holders(pointers, o) - {h} == Holders(pointers, o);
    }
  }

  lemma PointingAfterWrite(pointers: map<Handle, Pointer>, h: Handle, p: Pointer, o: Object)
    ensures Pointing(pointers[h := p], o) ==
            Pointing(pointers, o) - (if h in pointers then One(pointers[h], o) else 0) + One(p, o)
  {
    OthersHold(pointers, h, o);
    var others, after := Holders(pointers, o) - {h}, Holders(pointers[h := p], o);
    assert forall x :: x in after <==> x in others || (x == h && p == To(o));
    assert after == if p == To(o) then others + {h} else others;
  }

  lemma PointingAfterDeath(pointers: map<Handle, Pointer>, h: Handle, o: Object)
    requires h in pointers
    ensures Pointing(pointers - {h}, o) == Pointing(pointers, o) - One(pointers[h], o)
  {
    OthersHold(pointers, h, o);
    assert Holders(pointers - {h}, o) == Holders(pointers, o) - {h};
  }

  /** Writing one handle moves one reference, for every object. */
  lemma WriteMovesReference(pointers: map<Handle, Pointer>, h: Handle, p: Pointer)
    ensures forall o :: Pointing(pointers[h := p], o) ==
              Pointing(pointers, o) - (if h in pointers then One(pointers[h], o) else 0) + One(p, o)
  {
    forall o
      ensures Pointing(pointers[h := p], o) ==
              Pointing(pointers, o) - (if h in pointers then One(pointers[h], o) else 0) + One(p, o)
    {
      PointingAfterWrite(pointers, h, p, o);
    }
  }

  lemma DeathDropsReference(pointers: map<Handle, Pointer>, h: Handle)
    requires h in pointers
    ensures forall o :: Pointing(pointers - {h}, o) == Pointing(pointers, o) - One(pointers[h], o)
  {
    forall o
      ensures Pointing(pointers - {h}, o) == Pointing(pointers, o) - One(pointers[h], o)
    {
      PointingAfterDeath(pointers, h, o);
    }
  }

  lemma HandleCounts(pointers: map<Handle, Pointer>, h: Handle, o: Object)
    requires h in pointers && pointers[h] == To(o)
    ensures Pointing(pointers, o) > 0
  {
    assert h in Holders(pointers, o);
  }

  // ---------------------------------------------------------------------
  // Memory
  // ---------------------------------------------------------------------

  datatype Memory = Memory(
    pointers: map<Handle, Pointer>,
    counts: map<Object, int>,
    destroyed: set<Object>,
    handedOut: multiset<Object>)

  /** The references to an object: handles pointing at it and references handed out. */
  ghost function References(m: Memory, o: Object): nat {
    Pointing(m.pointers, o) + m.handedOut[o]
  }

  ghost predicate Accounts(m: Memory) {
    && (forall h :: h in m.pointers && m.pointers[h].To? ==> m.pointers[h].target in m.counts)
    && (forall o :: o in m.counts ==> m.counts[o] == References(m, o))
    && (forall o :: o in m.destroyed ==> o in m.counts && m.counts[o] == 0)
    && (forall o :: o in m.handedOut ==> o in m.counts)
  }

  /** A pointer a caller may use: null or to an object not yet destroyed. */
  ghost predicate Usable(m: Memory, p: Pointer) {
    p.To? ==> p.target in m.counts && p.target !in m.destroyed
  }

  /** Destroyed objects stay destroyed, and a live object is destroyed exactly when its
      references fall to zero. */
  ghost predicate DestroysAtZero(m: Memory, m': Memory) {
    forall o :: o in m.counts ==>
      (o in m'.destroyed <==> o in m.destroyed || (References(m, o) > 0 && References(m', o) == 0))
  }

  /** The effect of an operation, given by where the handles point and what is handed out
      afterwards; the counts and the destroyed objects follow. */
  ghost predicate Effect(m: Memory, m': Memory, pointers: map<Handle, Pointer>, handedOut: multiset<Object>) {
    && m'.pointers == pointers && m'.handedOut == handedOut
    && m'.counts.Keys == m.counts.Keys
    && Accounts(m') && DestroysAtZero(m, m')
  }

  lemma SameReferences(a: Memory, b: Memory)
    requires a.pointers == b.pointers && a.handedOut == b.handedOut
    ensures forall o :: References(a, o) == References(b, o)
  {
  }

  /** Nothing is left open by `Effect`. */
  lemma EffectDeterminesMemory(m: Memory, a: Memory, b: Memory,
                               pointers: map<Handle, Pointer>, handedOut: multiset<Object>)
    requires Accounts(m) && Effect(m, a, pointers, handedOut) && Effect(m, b, pointers, handedOut)
    ensures a == b
  {
    hide References;
    assert forall o :: References(a, o) == References(b, o) by {
      SameReferences(a, b);
    }
    assert a.counts == b.counts;
  }

  // ---------------------------------------------------------------------
  // Whole runs
  // ---------------------------------------------------------------------

  /** What any operation below does to the memory; only `New` adds an object. */
  ghost predicate Transition(m: Memory, m': Memory) {
    && Accounts(m) && Accounts(m')
    && m.counts.Keys <= m'.counts.Keys && m'.destroyed <= m.counts.Keys
    && DestroysAtZero(m, m')
  }

  ghost predicate Trace(ms: seq<Memory>) {
    && ms != [] && ms[0] == Memory(map[], map[], {}, multiset{})
    && forall i :: 0 <= i < |ms| - 1 ==> Transition(ms[i], ms[i + 1])
  }

  /** The moment an object loses its last reference. */
  ghost predicate DropsLast(ms: seq<Memory>, o: Object, i: int) {
    && 0 <= i < |ms| - 1 && o in ms[i].counts
    && References(ms[i], o) > 0 && References(ms[i + 1], o) == 0
  }

  lemma EffectIsTransition(m: Memory, m': Memory, pointers: map<Handle, Pointer>, handedOut: multiset<Object>)
    requires Accounts(m) && Effect(m, m', pointers, handedOut)
    ensures Transition(m, m')
  {
  }

  lemma StepDestroysIffDropped(ms: seq<Memory>, o: Object, n: nat)
    requires Trace(ms) && n < |ms| - 1
    ensures o in ms[n + 1].destroyed <==> o in ms[n].destroyed || DropsLast(ms, o, n)
    ensures DropsLast(ms, o, n) ==> o !in ms[n].destroyed
  {
    hide References;
    assert Transition(ms[n], ms[n + 1]);
  }

  /** Along a trace an object is destroyed if and only if it has lost its last reference, and
      that happens at most once: a destroyed object never has a reference again. */
  lemma {:induction false} DestroyedIffLastDropped(ms: seq<Memory>, o: Object)
    requires Trace(ms)
    ensures o in ms[|ms| - 1].destroyed <==> exists i :: DropsLast(ms, o, i)
    ensures forall i, j :: DropsLast(ms, o, i) && DropsLast(ms, o, j) ==> i == j
    decreases |ms|
  {
    hide References, Transition;
    var n := |ms| - 1;
    if n > 0 {
      var before := ms[..n];
      DestroyedIffLastDropped(before, o);
      StepDestroysIffDropped(ms, o, n - 1);
      assert forall i :: 0 <= i < n ==> before[i] == ms[i];
      assert forall i :: DropsLast(before, o, i) ==> DropsLast(ms, o, i);
      assert forall i :: DropsLast(ms, o, i) && i < n - 1 ==> DropsLast(before, o, i);
    }
  }

  /** An operation that moved no count, followed by another, is that other one. */
  lemma AfterPointerMoves(m: Memory, a: Memory, b: Memory)
    requires Accounts(m) && a.counts == m.counts && Effect(m, a, a.pointers, a.handedOut)
    requires Effect(a, b, b.pointers, b.handedOut)
    ensures Effect(m, b, b.pointers, b.handedOut)
  {
    hide References;
  }

  lemma MoveThroughTemporary(ps: map<Handle, Pointer>, h: Handle, r: Handle, t: Handle)
    requires h in ps && r in ps && t !in ps
    ensures var moved := ps[r := Null][t := ps[r]];
            moved[t := moved[h]][h := moved[t]] - {t} == if h == r then ps else ps[h := ps[r]][r := Null]
  {
  }

  /** No handle dangles. */
  lemma NoDanglingHandle(m: Memory, h: Handle)
    requires Accounts(m) && h in m.pointers
    ensures Usable(m, m.pointers[h])
    ensures m.pointers[h].To? ==> m.counts[m.pointers[h].target] > 0
  {
    if m.pointers[h].To? {
      HandleCounts(m.pointers, h, m.pointers[h].target);
    }
  }

  /** Bookkeeping common to all operations: if every count has moved by as much as the
      object's references, and exactly the objects whose count fell to zero were destroyed,
      the accounts still balance. */
  lemma Balance(m: Memory, m': Memory)
    requires Accounts(m) && m'.counts.Keys == m.counts.Keys
    requires forall h :: h in m'.pointers && m'.pointers[h].To? ==> m'.pointers[h].target in m.counts
    requires forall o :: o in m'.handedOut ==> o in m.counts
    requires forall o :: o in m.counts ==>
               m'.counts[o] - m.counts[o] == References(m', o) - References(m, o)
    requires forall o :: o in m'.destroyed <==>
               o in m.destroyed || (o in m.counts && m.counts[o] > 0 && m'.counts[o] == 0)
    requires forall o :: o in m.destroyed ==> m'.counts[o] == 0
    ensures Effect(m, m', m'.pointers, m'.handedOut)
  {
    hide Pointing;
  }

  /** Counts move by the references a write takes away and brings. */
  ghost predicate CountsMoved(m: Memory, counts: map<Object, int>, given: Pointer, taken: Pointer) {
    && counts.Keys == m.counts.Keys
    && forall o :: o in m.counts ==> counts[o] == m.counts[o] - One(given, o) + One(taken, o)
  }

  /** A handle's pointer changes places with one whose reference a caller owns. */
  function Traded(m: Memory, h: Handle, p: Pointer): Memory
    requires h in m.pointers
  {
    m.(pointers := m.pointers[h := p], handedOut := m.handedOut - Bag(p) + Bag(m.pointers[h]))
  }

  lemma TradedReferences(m: Memory, h: Handle, p: Pointer)
    requires h in m.pointers && (p.To? ==> p.target in m.handedOut)
    ensures forall o :: References(Traded(m, h, p), o) == References(m, o)
    ensures forall o :: Traded(m, h, p).handedOut[o] == m.handedOut[o] - One(p, o) + One(m.pointers[h], o)
  {
    hide Pointing, Bag;
    BagsCount(m.handedOut, p, m.pointers[h]);
    WriteMovesReference(m.pointers, h, p);
  }

  lemma TradedBalances(m: Memory, h: Handle, p: Pointer)
    requires Accounts(m) && h in m.pointers && (p.To? ==> p.target in m.handedOut)
    ensures Effect(m, Traded(m, h, p), m.pointers[h := p], m.handedOut - Bag(p) + Bag(m.pointers[h]))
  {
    hide References, Bag, Effect;
    var m' := Traded(m, h, p);
    TradedReferences(m, h, p);
    assert forall o :: o in m'.handedOut ==> o in m.counts by {
      forall o | o in m'.handedOut
        ensures o in m.counts
      {
        assert m'.handedOut[o] == m.handedOut[o] - One(p, o) + One(m.pointers[h], o);
      }
    }
    Balance(m, m');
  }

  /** A new handle takes over the pointer of another. */
  lemma PassedBalances(m: Memory, h: Handle, r: Handle)
    requires Accounts(m) && h !in m.pointers && r in m.pointers
    ensures var ps := m.pointers[r := Null][h := m.pointers[r]];
            Effect(m, m.(pointers := ps), ps, m.handedOut)
  {
    hide Pointing;
    var released := m.pointers[r := Null];
    var m' := m.(pointers := released[h := m.pointers[r]]);
    WriteMovesReference(m.pointers, r, Null);
    WriteMovesReference(released, h, m.pointers[r]);
    assert forall o :: References(m', o) == References(m, o);
    Balance(m, m');
  }

  lemma GivenUpBalances(m: Memory, p: Pointer, counts: map<Object, int>, destroyed: set<Object>)
    requires Accounts(m) && p.To? && p.target in m.handedOut
    requires CountsMoved(m, counts, p, Null)
    requires destroyed == m.destroyed + if counts[p.target] == 0 then {p.target} else {}
    ensures var m' := m.(counts := counts, destroyed := destroyed, handedOut := m.handedOut - Bag(p));
            Effect(m, m', m.pointers, m.handedOut - Bag(p)) && References(m', p.target) == counts[p.target]
  {
    hide Pointing, Bag;
    var m' := m.(counts := counts, destroyed := destroyed, handedOut := m.handedOut - Bag(p));
    BagsCount(m.handedOut, p, Null);
    NullBag(m.handedOut - Bag(p));
    assert forall o :: References(m', o) == References(m, o) - One(p, o);
    Balance(m, m');
  }

  /** A handle is written, its old reference given up and the new one taken. */
  lemma WrittenBalances(m: Memory, h: Handle, p: Pointer, counts: map<Object, int>, destroyed: set<Object>)
    requires Accounts(m) && h in m.pointers && Usable(m, p)
    requires CountsMoved(m, counts, m.pointers[h], p)
    requires var q := m.pointers[h];
             destroyed == m.destroyed + if q.To? && q.target in counts && counts[q.target] == 0 then {q.target} else {}
    ensures var m' := m.(pointers := m.pointers[h := p], counts := counts, destroyed := destroyed);
            Effect(m, m', m.pointers[h := p], m.handedOut)
  {
    hide Pointing;
    var m' := m.(pointers := m.pointers[h := p], counts := counts, destroyed := destroyed);
    NoDanglingHandle(m, h);
    WriteMovesReference(m.pointers, h, p);
    Balance(m, m');
  }

  lemma HandedOutIsUsable(m: Memory, p: Pointer)
    requires Accounts(m) && p.To? && p.target in m.handedOut
    ensures Usable(m, p)
  {
    assert References(m, p.target) > 0;
  }

  lemma NullBag(owned: multiset<Object>)
    ensures owned + Bag(Null) == owned && owned - Bag(Null) == owned
  {
  }

  // ---------------------------------------------------------------------
  // The operations
  // ---------------------------------------------------------------------

  class Heap {
    var memory: Memory
    ghost var history: seq<Memory>   // the memory at first and after every operation

    /** The history is a trace that ends in the present. */
    ghost predicate Valid()
      reads this
    {
      Accounts(memory) && Trace(history) && history[|history| - 1] == memory
    }

    constructor ()
      ensures memory == Memory(map[], map[], {}, multiset{}) && Valid() && history == [memory]
    {
      memory := Memory(map[], map[], {}, multiset{});
      history := [Memory(map[], map[], {}, multiset{})];
    }

    /** Ends an operation that began with the last memory of the history. */
    ghost method Record()
      requires Trace(history) && Transition(history[|history| - 1], memory)
      modifies this`history
      ensures Valid() && history == old(history) + [memory]
    {
      hide Accounts, DestroysAtZero;
      history := history + [memory];
    }

    /** A new object, with a count of zero and no references. */
    method New(o: Object)
      requires Valid() && o !in memory.counts
      modifies this
      ensures memory == old(memory).(counts := old(memory).counts[o := 0])
      ensures Valid() && history == old(history) + [memory]
    {
      assert Holders(memory.pointers, o) == {};
      memory := memory.(counts := memory.counts[o := 0]);
      Record();
    }

    method AddRef(p: Pointer)
      requires p.To? && Usable(memory, p)
      modifies this`memory
      ensures memory == old(memory).(counts := memory.counts)
      ensures CountsMoved(old(memory), memory.counts, Null, p)
    {
      memory := memory.(counts := memory.counts[p.target := memory.counts[p.target] + 1]);
    }

    /** Release: decrement, and delete at zero. */
    method Release(p: Pointer) returns (status: ReleaseStatus)
      requires p.To? && Usable(memory, p)
      modifies this`memory
      ensures memory == old(memory).(counts := memory.counts, destroyed := memory.destroyed)
      ensures CountsMoved(old(memory), memory.counts, p, Null)
      ensures memory.destroyed == old(memory).destroyed + if memory.counts[p.target] == 0 then {p.target} else {}
      ensures status == DroppedLastRef <==> memory.counts[p.target] == 0
    {
      var afterSubtract := memory.counts[p.target] - 1;
      memory := memory.(counts := memory.counts[p.target := afterSubtract]);
      status := if afterSubtract == 0 then DroppedLastRef else OtherRefsRemained;
      if status == DroppedLastRef {
        memory := memory.(destroyed := memory.destroyed + {p.target});
      }
    }

    /** The owner of a handed-out reference gives it up. */
    method ReleaseHandedOut(p: Pointer) returns (status: ReleaseStatus)
      requires Valid() && p.To? && p.target in memory.handedOut
      modifies this
      ensures Effect(old(memory), memory, old(memory).pointers, old(memory).handedOut - Bag(p))
      ensures status == DroppedLastRef <==> References(memory, p.target) == 0
      ensures Valid() && history == old(history) + [memory]
    {
      hide DestroysAtZero, Trace, Transition, References, Bag, CountsMoved;
      ghost var m := memory;
      HandedOutIsUsable(m, p);
      status := Release(p);
      memory := memory.(handedOut := memory.handedOut - Bag(p));
      GivenUpBalances(m, p, memory.counts, memory.destroyed);
      EffectIsTransition(m, memory, memory.pointers, memory.handedOut);
      Record();
    }

    /** scoped_refptr(T*), and with Null the default constructor. */
    method ConstructRaw(h: Handle, p: Pointer)
      requires Valid() && h !in memory.pointers && Usable(memory, p)
      modifies this
      ensures Effect(old(memory), memory, old(memory).pointers[h := p], old(memory).handedOut)
      ensures Valid() && history == old(history) + [memory]
    {
      hide Pointing, Trace, Transition;
      ghost var m := memory;
      memory := memory.(pointers := memory.pointers[h := p]);
      if p.To? {
        AddRef(p);
      }
      WriteMovesReference(m.pointers, h, p);
      Balance(m, memory);
      EffectIsTransition(m, memory, memory.pointers, memory.handedOut);
      Record();
    }

    /** scoped_refptr(const scoped_refptr&). */
    method ConstructCopy(h: Handle, r: Handle)
      requires Valid() && h !in memory.pointers && r in memory.pointers
      modifies this
      ensures Effect(old(memory), memory, old(memory).pointers[h := old(memory).pointers[r]], old(memory).handedOut)
      ensures Valid() && history == old(history) + [memory]
    {
      NoDanglingHandle(memory, r);
      ConstructRaw(h, memory.pointers[r]);
    }

    /** release(): the caller takes over the handle's reference; no count changes. */
    method ReleasePointer(h: Handle) returns (p: Pointer)
      requires Valid() && h in memory.pointers
      modifies this
      ensures p == old(memory).pointers[h] && memory.counts == old(memory).counts
      ensures Effect(old(memory), memory, old(memory).pointers[h := Null], old(memory).handedOut + Bag(p))
      ensures Valid() && history == old(history) + [memory]
    {
      hide Accounts, DestroysAtZero, Trace, Transition, References, Bag;
      ghost var m := memory;
      p := memory.pointers[h];
      memory := memory.(pointers := memory.pointers[h := Null], handedOut := memory.handedOut + Bag(p));
      NullBag(m.handedOut);
      TradedBalances(m, h, Null);
      EffectIsTransition(m, memory, memory.pointers, memory.handedOut);
      Record();
    }

    /** scoped_refptr(scoped_refptr&&): release() on r, and the new handle owns its result. */
    method ConstructMove(h: Handle, r: Handle)
      requires Valid() && h !in memory.pointers && r in memory.pointers
      modifies this
      ensures memory.counts == old(memory).counts
      ensures Effect(old(memory), memory,
                     old(memory).pointers[r := Null][h := old(memory).pointers[r]], old(memory).handedOut)
      ensures Valid() && history == old(history) + [memory]
    {
      hide Accounts, DestroysAtZero, Trace, Transition, References, Bag;
      ghost var m := memory;
      var p := memory.pointers[r];
      memory := memory.(pointers := memory.pointers[r := Null]);
      memory := memory.(pointers := memory.pointers[h := p]);
      PassedBalances(m, h, r);
      EffectIsTransition(m, memory, memory.pointers, memory.handedOut);
      Record();
    }

    /** ~scoped_refptr(). */
    method Destruct(h: Handle)
      requires Valid() && h in memory.pointers
      modifies this
      ensures Effect(old(memory), memory, old(memory).pointers - {h}, old(memory).handedOut)
      ensures Valid() && history == old(history) + [memory]
    {
      hide Pointing, Trace, Transition;
      ghost var m := memory;
      NoDanglingHandle(m, h);
      if memory.pointers[h].To? {
        var _ := Release(memory.pointers[h]);
      }
      memory := memory.(pointers := memory.pointers - {h});
      DeathDropsReference(m.pointers, h);
      Balance(m, memory);
      EffectIsTransition(m, memory, memory.pointers, memory.handedOut);
      Record();
    }

    /** operator=(T*).  The new reference is taken first, so that assigning the pointer
        already held works. */
    method AssignRaw(h: Handle, p: Pointer)
      requires Valid() && h in memory.pointers && Usable(memory, p)
      modifies this
      ensures Effect(old(memory), memory, old(memory).pointers[h := p], old(memory).handedOut)
      ensures Valid() && history == old(history) + [memory]
    {
      hide Accounts, DestroysAtZero, Trace, Transition, References;
      ghost var m := memory;
      NoDanglingHandle(m, h);
      if p.To? {
        AddRef(p);
      }
      if memory.pointers[h].To? {
        var _ := Release(memory.pointers[h]);
      }
      memory := memory.(pointers := memory.pointers[h := p]);
      WrittenBalances(m, h, p, memory.counts, memory.destroyed);
      EffectIsTransition(m, memory, memory.pointers, memory.handedOut);
      Record();
    }

    /** operator=(const scoped_refptr&); h and r may be the same handle. */
    method AssignCopy(h: Handle, r: Handle)
      requires Valid() && h in memory.pointers && r in memory.pointers
      modifies this
      ensures Effect(old(memory), memory, old(memory).pointers[h := old(memory).pointers[r]], old(memory).handedOut)
      ensures Valid() && history == old(history) + [memory]
    {
      NoDanglingHandle(memory, r);
      AssignRaw(h, memory.pointers[r]);
    }

    /** swap(T**) with a variable holding p, whose reference the caller owns; the variable's
        new content is returned. */
    method SwapRaw(h: Handle, p: Pointer) returns (q: Pointer)
      requires Valid() && h in memory.pointers
      requires p.To? ==> p.target in memory.handedOut
      modifies this
      ensures q == old(memory).pointers[h] && memory.counts == old(memory).counts
      ensures Effect(old(memory), memory, old(memory).pointers[h := p], old(memory).handedOut - Bag(p) + Bag(q))
      ensures Valid() && history == old(history) + [memory]
    {
      hide Accounts, DestroysAtZero, Trace, Transition, References, Bag;
      ghost var m := memory;
      q := memory.pointers[h];
      memory := memory.(pointers := memory.pointers[h := p], handedOut := memory.handedOut - Bag(p) + Bag(q));
      TradedBalances(m, h, p);
      EffectIsTransition(m, memory, memory.pointers, memory.handedOut);
      Record();
    }

    /** swap(scoped_refptr&); h and r may be the same handle. */
    method Swap(h: Handle, r: Handle)
      requires Valid() && h in memory.pointers && r in memory.pointers
      modifies this
      ensures memory.counts == old(memory).counts
      ensures Effect(old(memory), memory,
                     old(memory).pointers[h := old(memory).pointers[r]][r := old(memory).pointers[h]],
                     old(memory).handedOut)
      ensures Valid() && history == old(history) + [memory]
    {
      hide Pointing, Trace, Transition;
      ghost var m := memory;
      var p := memory.pointers[h];
      memory := memory.(pointers := memory.pointers[h := memory.pointers[r]]);
      WriteMovesReference(m.pointers, h, m.pointers[r]);
      WriteMovesReference(memory.pointers, r, p);
      memory := memory.(pointers := memory.pointers[r := p]);
      Balance(m, memory);
      EffectIsTransition(m, memory, memory.pointers, memory.handedOut);
      Record();
    }

    /** operator=(scoped_refptr&&): a temporary takes r's pointer, swaps with h and dies.
        Moving a handle onto itself changes nothing. */
    method AssignMove(h: Handle, r: Handle, temporary: Handle)
      requires Valid() && h in memory.pointers && r in memory.pointers && temporary !in memory.pointers
      modifies this
      ensures Effect(old(memory), memory,
                     if h == r then old(memory).pointers
                     else old(memory).pointers[h := old(memory).pointers[r]][r := Null],
                     old(memory).handedOut)
      ensures Valid() && old(history) < history
    {
      hide References, Trace, Transition;
      ghost var m := memory;
      ConstructMove(temporary, r);
      ghost var moved := memory;
      Swap(temporary, h);
      AfterPointerMoves(m, moved, memory);
      ghost var swapped := memory;
      Destruct(temporary);
      AfterPointerMoves(m, swapped, memory);
      MoveThroughTemporary(m.pointers, h, r, temporary);
    }
  }

  /** Whatever operations a heap has been through, an object is destroyed if and only if it
      has lost its last reference, which happens at most once, and no handle dangles. */
  lemma HeapDestroysIffDropped(heap: Heap, o: Object)
    requires heap.Valid()
    ensures o in heap.memory.destroyed <==> exists i :: DropsLast(heap.history, o, i)
    ensures forall i, j :: DropsLast(heap.history, o, i) && DropsLast(heap.history, o, j) ==> i == j
    ensures forall h :: h in heap.memory.pointers ==> Usable(heap.memory, heap.memory.pointers[h])
  {
    hide Trace, References;
    DestroyedIffLastDropped(heap.history, o);
    forall h | h in heap.memory.pointers
      ensures Usable(heap.memory, heap.memory.pointers[h])
    {
      NoDanglingHandle(heap.memory, h);
    }
  }
}
