/**
 * A sequence of guarded single-slot writes applied left to right to a JSON
 * value. The config generator is such a sequence: every write of the Go code
 * is "if this read succeeds, set this key", and a failed read skips that one
 * write silently. The lemmas here say, for any sequence whose writes do not
 * interfere, exactly what each slot holds afterwards and that everything
 * else is untouched.
 */
module Writes {
  import opened Wrappers
  import opened Json

  /** The extra condition a write checks beyond "the parent is an object". */
  datatype Guard =
    | Always
      /** something is present at this path */
    | Present(at: Path)
      /** the value at this path equals `wanted` */
    | Equals(at: Path, wanted: Json)

  predicate Holds(j: Json, g: Guard) {
    match g
    case Always => true
    case Present(p) => Lookup(j, p).Some?
    case Equals(p, e) => Lookup(j, p) == Some(e)
  }

  /** Set `key` to `value` in the object at `parent`, when `guard` holds. */
  datatype Write = Write(guard: Guard, parent: Path, key: string, value: Json)

  /** The path a write stores its value at. */
  function Slot(w: Write): Path {
    w.parent + [Key(w.key)]
  }

  function Apply(j: Json, w: Write): Json {
    if Holds(j, w.guard) then Put(j, w.parent, w.key, w.value) else j
  }

  function ApplyAll(j: Json, ws: seq<Write>): Json
    decreases |ws|
  {
    if ws == [] then j else ApplyAll(Apply(j, ws[0]), ws[1..])
  }

  /** Whether a write to slot `s` leaves the outcome of guard `g` alone. */
  predicate GuardClear(s: Path, g: Guard) {
    match g
    case Always => true
    case Present(p) => !(s <= p)
    case Equals(p, _) => Disjoint(s, p)
  }

  /**
   * `earlier` (applied first) and `later` do not interfere: their slots are
   * disjoint, and `earlier` does not write at or above anything `later` reads.
   */
  predicate Independent(earlier: Write, later: Write) {
    && Disjoint(Slot(earlier), Slot(later))
    && !(Slot(earlier) <= later.parent)
    && GuardClear(Slot(earlier), later.guard)
  }

  predicate NonInterfering(ws: seq<Write>) {
    forall i, k :: 0 <= i < k < |ws| ==> Independent(ws[i], ws[k])
  }

  /** Two lists of writes that go to the same places under the same guards, whatever their values. */
  predicate SameTargets(a: seq<Write>, b: seq<Write>) {
    && |a| == |b|
    && forall k :: 0 <= k < |a| ==>
         a[k].guard == b[k].guard && a[k].parent == b[k].parent && a[k].key == b[k].key
  }

  /** The writes of `layout`, each carrying the value at the same position of `values`. */
  function Fill(layout: seq<Write>, values: seq<Json>): (ws: seq<Write>)
    requires |values| == |layout|
    ensures SameTargets(ws, layout)
    ensures forall k :: 0 <= k < |ws| ==> ws[k].value == values[k]
  {
    seq(|layout|, k requires 0 <= k < |layout| => layout[k].(value := values[k]))
  }

  /** Whether writes interfere depends on where they go, not on what they store. */
  lemma SameTargetsNonInterfering(a: seq<Write>, b: seq<Write>)
    requires SameTargets(a, b)
    requires NonInterfering(b)
    ensures NonInterfering(a)
  {
    forall i, k | 0 <= i < k < |a|
      ensures Independent(a[i], a[k])
    {
      assert Independent(b[i], b[k]);
      assert Slot(a[i]) == Slot(b[i]) && Slot(a[k]) == Slot(b[k]);
    }
  }

  // Recursive forms of the prefix tests of `Independent`, which the verifier
  // can evaluate on concrete paths step by step.

  /** `p + [Key(k)] <= q`, one step at a time. */
  predicate SlotBelow(p: Path, k: string, q: Path)
    decreases |p|
  {
    if p == [] then q != [] && q[0] == Key(k)
    else q != [] && p[0] == q[0] && SlotBelow(p[1..], k, q[1..])
  }

  /** `q <= p + [Key(k)]`, one step at a time. */
  predicate PathAboveSlot(q: Path, p: Path, k: string)
    decreases |q|
  {
    if q == [] then true
    else if p == [] then q == [Key(k)]
    else q[0] == p[0] && PathAboveSlot(q[1..], p[1..], k)
  }

  /** One of `p1 + [Key(k1)]` and `p2 + [Key(k2)]` lies at or under the other. */
  predicate SlotsComparable(p1: Path, k1: string, p2: Path, k2: string)
    decreases |p1|
  {
    if p1 == [] then
      if p2 == [] then k1 == k2 else p2[0] == Key(k1)
    else if p2 == [] then p1[0] == Key(k2)
    else p1[0] == p2[0] && SlotsComparable(p1[1..], k1, p2[1..], k2)
  }

  lemma {:induction false} SlotBelowIsPrefix(p: Path, k: string, q: Path)
    ensures SlotBelow(p, k, q) <==> p + [Key(k)] <= q
    decreases |p|
  {
    if p != [] && q != [] {
      SlotBelowIsPrefix(p[1..], k, q[1..]);
      PrefixTail(p[1..] + [Key(k)], q);
      assert p + [Key(k)] == [p[0]] + (p[1..] + [Key(k)]);
    }
  }

  lemma {:induction false} PathAboveSlotIsPrefix(q: Path, p: Path, k: string)
    ensures PathAboveSlot(q, p, k) <==> q <= p + [Key(k)]
    decreases |q|
  {
    if q != [] && p != [] {
      PathAboveSlotIsPrefix(q[1..], p[1..], k);
      PrefixTail(q[1..], p + [Key(k)]);
      assert (p + [Key(k)])[1..] == p[1..] + [Key(k)];
      assert [q[0]] + q[1..] == q;
    }
  }

  lemma {:induction false} SlotsComparableIsPrefix(p1: Path, k1: string, p2: Path, k2: string)
    ensures SlotsComparable(p1, k1, p2, k2) <==> !Disjoint(p1 + [Key(k1)], p2 + [Key(k2)])
    decreases |p1|
  {
    var s1, s2 := p1 + [Key(k1)], p2 + [Key(k2)];
    if p1 != [] && p2 != [] {
      SlotsComparableIsPrefix(p1[1..], k1, p2[1..], k2);
      assert s1[1..] == p1[1..] + [Key(k1)];
      assert s2[1..] == p2[1..] + [Key(k2)];
      PrefixTail(s1[1..], s2);
      PrefixTail(s2[1..], s1);
      assert [s1[0]] + s1[1..] == s1;
      assert [s2[0]] + s2[1..] == s2;
    } else if p1 == [] && p2 != [] {
      assert s1 == [Key(k1)] && s2[0] == p2[0];
      assert !(s2 <= s1) by {
        assert |s2| > |s1|;
      }
      if p2[0] == Key(k1) {
        assert s2[..1] == s1;
      }
    } else if p1 != [] && p2 == [] {
      assert s2 == [Key(k2)] && s1[0] == p1[0];
      assert !(s1 <= s2) by {
        assert |s1| > |s2|;
      }
      if p1[0] == Key(k2) {
        assert s1[..1] == s2;
      }
    } else if p1 == [] && p2 == [] {
      assert s1 == [Key(k1)] && s2 == [Key(k2)];
      assert s1 <= s2 ==> s1[0] == s2[0];
    }
  }

  /** `Independent`, phrased so that it can be evaluated on concrete writes. */
  predicate Separate(earlier: Write, later: Write) {
    && !SlotsComparable(earlier.parent, earlier.key, later.parent, later.key)
    && match later.guard
       case Always => true
       case Present(g) => !SlotBelow(earlier.parent, earlier.key, g)
       case Equals(g, _) =>
         !SlotBelow(earlier.parent, earlier.key, g) && !PathAboveSlot(g, earlier.parent, earlier.key)
  }

  lemma SeparateIsIndependent(earlier: Write, later: Write)
    requires Separate(earlier, later)
    ensures Independent(earlier, later)
  {
    SlotsComparableIsPrefix(earlier.parent, earlier.key, later.parent, later.key);
    assert later.parent <= Slot(later);
    match later.guard
    case Always =>
    case Present(g) =>
      SlotBelowIsPrefix(earlier.parent, earlier.key, g);
    case Equals(g, _) =>
      SlotBelowIsPrefix(earlier.parent, earlier.key, g);
      PathAboveSlotIsPrefix(g, earlier.parent, earlier.key);
  }

  /** A write separate from every later write may be put in front. */
  lemma ConsNonInterfering(w: Write, rest: seq<Write>)
    requires NonInterfering(rest)
    requires forall x :: x in rest ==> Separate(w, x)
    ensures NonInterfering([w] + rest)
  {
    var ws := [w] + rest;
    forall i, k | 0 <= i < k < |ws|
      ensures Independent(ws[i], ws[k])
    {
      assert ws[k] == rest[k - 1];
      if i > 0 {
        assert ws[i] == rest[i - 1];
      } else {
        SeparateIsIndependent(w, rest[k - 1]);
      }
    }
  }

  lemma ApplyAllAppend(j: Json, a: seq<Write>, b: seq<Write>)
    ensures ApplyAll(j, a + b) == ApplyAll(ApplyAll(j, a), b)
    decreases |a|
  {
    if a != [] {
      assert (a + b)[0] == a[0] && (a + b)[1..] == a[1..] + b;
      ApplyAllAppend(Apply(j, a[0]), a[1..], b);
    } else {
      assert a + b == b;
    }
  }

  /** A path disjoint from every slot reads the same before and after. */
  lemma {:induction false} ApplyAllFrame(j: Json, ws: seq<Write>, q: Path)
    requires forall k :: 0 <= k < |ws| ==> Disjoint(Slot(ws[k]), q)
    ensures Lookup(ApplyAll(j, ws), q) == Lookup(j, q)
    decreases |ws|
  {
    if ws != [] {
      if Holds(j, ws[0].guard) {
        PutFrame(j, ws[0].parent, ws[0].key, ws[0].value, q);
      }
      ApplyAllFrame(Apply(j, ws[0]), ws[1..], q);
    }
  }

  /** A path not at or under any slot keeps its shape. */
  lemma {:induction false} ApplyAllShape(j: Json, ws: seq<Write>, q: Path)
    requires forall k :: 0 <= k < |ws| ==> !(Slot(ws[k]) <= q)
    ensures Shape(Lookup(ApplyAll(j, ws), q)) == Shape(Lookup(j, q))
    decreases |ws|
  {
    if ws != [] {
      if Holds(j, ws[0].guard) {
        PutShape(j, ws[0].parent, ws[0].key, ws[0].value, q);
      }
      ApplyAllShape(Apply(j, ws[0]), ws[1..], q);
    }
  }

  /** One write does not change what a later, independent write sees. */
  lemma ApplyKeepsView(j: Json, w: Write, later: Write)
    requires Independent(w, later)
    ensures Holds(Apply(j, w), later.guard) == Holds(j, later.guard)
    ensures ObjAt(Apply(j, w), later.parent) == ObjAt(j, later.parent)
    ensures Lookup(Apply(j, w), Slot(later)) == Lookup(j, Slot(later))
  {
    ApplyKeepsGuard(j, w, later.guard);
    ApplyKeepsParent(j, w, later.parent);
    ApplyKeepsSlot(j, w, Slot(later));
  }

  /** A path not at or under a write's slot keeps whether it leads to an object. */
  lemma ApplyKeepsParent(j: Json, w: Write, p: Path)
    requires !(Slot(w) <= p)
    ensures ObjAt(Apply(j, w), p) == ObjAt(j, p)
  {
    if Holds(j, w.guard) {
      PutShape(j, w.parent, w.key, w.value, p);
    }
  }

  /** A path disjoint from a write's slot reads the same after it. */
  lemma ApplyKeepsSlot(j: Json, w: Write, q: Path)
    requires Disjoint(Slot(w), q)
    ensures Lookup(Apply(j, w), q) == Lookup(j, q)
  {
    if Holds(j, w.guard) {
      PutFrame(j, w.parent, w.key, w.value, q);
    }
  }

  /** A guard that does not look at a write's slot evaluates the same before and after it. */
  lemma ApplyKeepsGuard(j: Json, w: Write, g: Guard)
    requires GuardClear(Slot(w), g)
    ensures Holds(Apply(j, w), g) == Holds(j, g)
  {
    if Holds(j, w.guard) {
      match g
      case Always =>
      case Present(p) =>
        PutShape(j, w.parent, w.key, w.value, p);
      case Equals(p, _) =>
        PutFrame(j, w.parent, w.key, w.value, p);
    }
  }

  /**
   * After a non-interfering sequence, each slot holds its write's value when
   * that write's guard held and its parent was an object in the ORIGINAL
   * value, and otherwise holds what it held before.
   */
  lemma {:induction false} ApplyAllSlot(j: Json, ws: seq<Write>, i: nat)
    requires NonInterfering(ws)
    requires i < |ws|
    ensures Lookup(ApplyAll(j, ws), Slot(ws[i])) ==
            if Holds(j, ws[i].guard) && ObjAt(j, ws[i].parent)
            then Some(ws[i].value)
            else Lookup(j, Slot(ws[i]))
    decreases |ws|
  {
    var w := ws[0];
    var j1 := Apply(j, w);
    assert NonInterfering(ws[1..]) by {
      forall a, b | 0 <= a < b < |ws[1..]|
        ensures Independent(ws[1..][a], ws[1..][b])
      {
        assert Independent(ws[a + 1], ws[b + 1]);
      }
    }
    if i == 0 {
      if Holds(j, w.guard) && ObjAt(j, w.parent) {
        PutHit(j, w.parent, w.key, w.value);
      } else if Holds(j, w.guard) {
        PutMiss(j, w.parent, w.key, w.value);
      }
      forall k | 0 <= k < |ws[1..]|
        ensures Disjoint(Slot(ws[1..][k]), Slot(w))
      {
        assert Independent(ws[0], ws[k + 1]);
      }
      ApplyAllFrame(j1, ws[1..], Slot(w));
    } else {
      assert Independent(ws[0], ws[i]);
      ApplyKeepsView(j, w, ws[i]);
      ApplyAllSlot(j1, ws[1..], i - 1);
      assert ws[1..][i - 1] == ws[i];
    }
  }
}
