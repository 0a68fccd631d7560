/**
 * The decoded-JSON value that templates and generated configurations are
 * made of (Go's `interface{}` holding `map[string]interface{}`,
 * `[]interface{}`, `string`, a number, `bool` or `nil`), paths into it, the
 * guarded single-slot write the config generator is built from, and the
 * recursive deep copy.
 */
module Json {
  import opened Wrappers

  /** JSON numbers are modelled as integers (the float64 case is left out). */
  datatype Json =
    | Str(s: string)
    | Num(n: int)
    | Bool(b: bool)
    | Null
    | Arr(items: seq<Json>)
    | Obj(fields: map<string, Json>)

  /** A JSON object; a template is one of these. */
  type Object = map<string, Json>

  /** One step into a value: an object key or an array index. */
  datatype Step = Key(name: string) | Index(pos: nat)

  type Path = seq<Step>

  /** The constructor of a value, without its contents. */
  datatype Kind = StrKind | NumKind | BoolKind | NullKind | ArrKind | ObjKind

  function KindOf(j: Json): Kind {
    match j
    case Str(_) => StrKind
    case Num(_) => NumKind
    case Bool(_) => BoolKind
    case Null => NullKind
    case Arr(_) => ArrKind
    case Obj(_) => ObjKind
  }

  /** What is found at a path: absent, or present with a given constructor. */
  function Shape(o: Option<Json>): Option<Kind> {
    match o
    case None => None
    case Some(j) => Some(KindOf(j))
  }

  /**
   * One step of a Go type-asserted read: `m[k].(T)` on an object succeeds
   * only for a present key, `a[i]` on an array only for an index in range.
   */
  function At(j: Json, s: Step): Option<Json> {
    match s
    case Key(k) => if j.Obj? && k in j.fields then Some(j.fields[k]) else None
    case Index(i) => if j.Arr? && i < |j.items| then Some(j.items[i]) else None
  }

  /** The value at path `p` in `j`, if every step succeeds. */
  function Lookup(j: Json, p: Path): Option<Json>
    decreases |p|
  {
    if p == [] then Some(j)
    else
      match At(j, p[0])
      case None => None
      case Some(c) => Lookup(c, p[1..])
  }

  /** Reading one step further: the value at `p`, then one more step. */
  lemma {:induction false} LookupSnoc(j: Json, p: Path, s: Step)
    ensures Lookup(j, p + [s]) == match Lookup(j, p) case None => None case Some(c) => At(c, s)
    decreases |p|
  {
    if p == [] {
      assert [] + [s] == [s];
      match At(j, s)
      case None =>
      case Some(c) => assert Lookup(c, []) == Some(c);
    } else {
      assert (p + [s])[0] == p[0] && (p + [s])[1..] == p[1..] + [s];
      match At(j, p[0])
      case None =>
      case Some(c) => LookupSnoc(c, p[1..], s);
    }
  }

  /** There is an object at path `p`. */
  predicate ObjAt(j: Json, p: Path) {
    Lookup(j, p).Some? && Lookup(j, p).value.Obj?
  }

  /** A key can be read under `p` only when `p` holds an object that has it. */
  lemma LookupChild(j: Json, p: Path, key: string)
    ensures Lookup(j, p + [Key(key)]).Some? <==> ObjAt(j, p) && key in Lookup(j, p).value.fields
    ensures ObjAt(j, p) && key in Lookup(j, p).value.fields ==>
            Lookup(j, p + [Key(key)]) == Some(Lookup(j, p).value.fields[key])
  {
    LookupSnoc(j, p, Key(key));
  }

  /** Neither path lies at or under the other. */
  predicate Disjoint(p: Path, q: Path) {
    !(p <= q) && !(q <= p)
  }

  /**
   * Set `key` to `v` in the object at path `p`. When some step of `p` fails,
   * or the value found there is not an object, nothing changes: this is the
   * Go idiom `if x, ok := ...(map[string]interface{}); ok { x[key] = v }`.
   */
  function Put(j: Json, p: Path, key: string, v: Json): (r: Json)
    ensures KindOf(r) == KindOf(j)
    decreases |p|
  {
    if p == [] then
      if j.Obj? then Obj(j.fields[key := v]) else j
    else
      match p[0]
      case Key(k) =>
        if j.Obj? && k in j.fields
        then Obj(j.fields[k := Put(j.fields[k], p[1..], key, v)])
        else j
      case Index(i) =>
        if j.Arr? && i < |j.items|
        then Arr(j.items[i := Put(j.items[i], p[1..], key, v)])
        else j
  }

  /** A write whose target object is missing leaves the value unchanged. */
  lemma {:induction false} PutMiss(j: Json, p: Path, key: string, v: Json)
    requires !ObjAt(j, p)
    ensures Put(j, p, key, v) == j
    decreases |p|
  {
    if p != [] {
      match At(j, p[0])
      case None =>
      case Some(c) =>
        PutMiss(c, p[1..], key, v);
    }
  }

  /** A write whose target object exists stores exactly `v` under `key`. */
  lemma {:induction false} PutHit(j: Json, p: Path, key: string, v: Json)
    requires ObjAt(j, p)
    ensures Lookup(Put(j, p, key, v), p + [Key(key)]) == Some(v)
    decreases |p|
  {
    var r := Put(j, p, key, v);
    if p == [] {
      assert At(r, Key(key)) == Some(v);
      assert Lookup(v, []) == Some(v);
    } else {
      var c := At(j, p[0]).value;
      PutHit(c, p[1..], key, v);
      var c' := Put(c, p[1..], key, v);
      assert At(r, p[0]) == Some(c');
      assert (p + [Key(key)])[1..] == p[1..] + [Key(key)];
    }
  }

  /** Prefixing both sides with the same step keeps the prefix relation. */
  lemma PrefixTail(a: Path, q: Path)
    requires q != []
    ensures a <= q[1..] <==> [q[0]] + a <= q
  {
    if [q[0]] + a <= q {
      assert a == ([q[0]] + a)[1..];
    }
    if a <= q[1..] {
      assert [q[0]] + a == q[..|a| + 1];
    }
  }

  /** A write changes nothing at a path disjoint from the slot it writes. */
  lemma {:induction false} PutFrame(j: Json, p: Path, key: string, v: Json, q: Path)
    requires Disjoint(p + [Key(key)], q)
    ensures Lookup(Put(j, p, key, v), q) == Lookup(j, q)
    decreases |p|
  {
    var r := Put(j, p, key, v);
    assert q != [];
    if p == [] {
      assert q[0] != Key(key);
      assert At(r, q[0]) == At(j, q[0]);
    } else if q[0] != p[0] {
      assert At(r, q[0]) == At(j, q[0]);
    } else {
      assert (p + [Key(key)])[1..] == p[1..] + [Key(key)];
      match At(j, p[0])
      case None =>
        PutMiss(j, p, key, v);
      case Some(c) =>
        assert Disjoint(p[1..] + [Key(key)], q[1..]) by {
          PrefixTail(p[1..] + [Key(key)], q);
          PrefixTail(q, p[1..] + [Key(key)]);
        }
        PutFrame(c, p[1..], key, v, q[1..]);
        assert At(r, p[0]) == Some(Put(c, p[1..], key, v));
    }
  }

  /**
   * Outside the written slot and everything under it, a write keeps what is
   * found at every path: present stays present, with the same constructor.
   * So a later type-asserted read along such a path succeeds exactly when it
   * did before the write.
   */
  lemma {:induction false} PutShape(j: Json, p: Path, key: string, v: Json, q: Path)
    requires !(p + [Key(key)] <= q)
    ensures Shape(Lookup(Put(j, p, key, v), q)) == Shape(Lookup(j, q))
    decreases |q|
  {
    var r := Put(j, p, key, v);
    if q == [] {
    } else if p == [] {
      assert q[0] != Key(key);
      assert At(r, q[0]) == At(j, q[0]);
    } else if q[0] != p[0] {
      assert At(r, q[0]) == At(j, q[0]);
    } else {
      match At(j, p[0])
      case None =>
        PutMiss(j, p, key, v);
      case Some(c) =>
        assert !(p[1..] + [Key(key)] <= q[1..]) by {
          PrefixTail(p[1..] + [Key(key)], q);
        }
        PutShape(c, p[1..], key, v, q[1..]);
        assert At(r, p[0]) == Some(Put(c, p[1..], key, v));
    }
  }

  /** Deep copy of an object: every value is copied by `CopyValue`. */
  function DeepCopyMap(m: Object): Object
    decreases Obj(m), 0
  {
    map k | k in m :: CopyValue(m[k])
  }

  /** Deep copy of an array: every element is copied by `CopyValue`. */
  function DeepCopySlice(a: seq<Json>): seq<Json>
    decreases Arr(a), 0
  {
    seq(|a|, i requires 0 <= i < |a| => CopyValue(a[i]))
  }

  /** The type switch shared by both copies: recurse into containers, keep scalars. */
  function CopyValue(v: Json): Json
    decreases v, 1
  {
    match v
    case Obj(m) => Obj(DeepCopyMap(m))
    case Arr(a) => Arr(DeepCopySlice(a))
    case _ => v
  }

  /** The deep copy is structurally equal to its input, at every depth. */
  lemma {:induction false} CopyValueIsIdentity(v: Json)
    ensures CopyValue(v) == v
    decreases v
  {
    match v
    case Obj(m) =>
      forall k | k in m
        ensures CopyValue(m[k]) == m[k]
      {
        CopyValueIsIdentity(m[k]);
      }
      assert DeepCopyMap(m) == m;
    case Arr(a) =>
      forall i | 0 <= i < |a|
        ensures CopyValue(a[i]) == a[i]
      {
        CopyValueIsIdentity(a[i]);
      }
      assert DeepCopySlice(a) == a;
    case _ =>
  }

  /** Copying an object yields an equal object. */
  lemma DeepCopyMapIsIdentity(m: Object)
    ensures DeepCopyMap(m) == m
  {
    CopyValueIsIdentity(Obj(m));
  }
}
