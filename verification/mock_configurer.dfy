/**
 * The two-level, auto-vivifying namespace the configurer writes into.
 *
 * A namespace maps top-level names to entries. An entry is either a plain value
 * assigned directly (`c.SomethingSomething = 'hi'`) or an attribute object whose
 * second-level attributes are set by `c.FirstLevel.second_level = v`. Reading a
 * top-level name that is not there inserts a fresh empty object and returns it.
 */
module MockConfigurer {
  import opened Wrappers
  import opened PyValue

  datatype Entry = Leaf(value: Value) | Obj(attrs: map<string, Value>)

  type Namespace = map<string, Entry>

  datatype Error =
    /** Setting an attribute on a top-level name that holds a plain value
        (Python raises `AttributeError`). */
    | NotAnObject(names: set<string>)
    /** A cull option formatted with `%d` is not an integer (Python raises `TypeError`). */
    | NotAnInteger(option: string)

  /** A fresh configurer holds nothing. */
  const Empty: Namespace := map[]

  /**
   * `c.k`: returns the stored entry, inserting a fresh empty object first when
   * `k` is missing. Nothing else in the namespace changes.
   */
  function GetAttr(ns: Namespace, k: string): (r: (Namespace, Entry))
    ensures r.0.Keys == ns.Keys + {k}
    ensures k in r.0 && r.0[k] == r.1
    ensures forall j :: j in ns ==> r.0[j] == ns[j]
    ensures k in ns ==> r.1 == ns[k]
    ensures k !in ns ==> r.1 == Obj(map[])
  {
    if k in ns then (ns, ns[k]) else (ns[k := Obj(map[])], Obj(map[]))
  }

  /** `c.k = v`: a direct top-level assignment of a plain value. */
  function SetTop(ns: Namespace, k: string, v: Value): (r: Namespace)
    ensures r.Keys == ns.Keys + {k}
    ensures GetAttr(r, k) == (r, Leaf(v))
    ensures forall j :: j in ns && j != k ==> r[j] == ns[j]
  {
    ns[k := Leaf(v)]
  }

  /**
   * `c.k.a = v`: reads `c.k` (vivifying it), then sets attribute `a` on it.
   * Fails when `c.k` is a plain value rather than an attribute object.
   */
  function SetAttr(ns: Namespace, k: string, a: string, v: Value): (r: Result<Namespace, Error>)
    ensures r.Err? <==> k in ns && ns[k].Leaf?
    ensures r.Err? ==> r.error == NotAnObject({k})
    ensures r.Ok? ==> r.value.Keys == ns.Keys + {k}
    ensures r.Ok? ==> forall j :: j in ns && j != k ==> r.value[j] == ns[j]
  {
    var (ns', e) := GetAttr(ns, k);
    match e
    case Leaf(_) => Err(NotAnObject({k}))
    case Obj(attrs) => Ok(ns'[k := Obj(attrs[a := v])])
  }

  /**
   * `c.k.a`: reads `c.k` (vivifying it) and then its attribute `a`, which is
   * absent (`hasattr` is false) unless it was assigned.
   */
  function ReadAttr(ns: Namespace, k: string, a: string): (r: (Namespace, Option<Value>))
    ensures r.0 == GetAttr(ns, k).0
    ensures r.1.Some? <==> k in ns && ns[k].Obj? && a in ns[k].attrs
    ensures r.1.Some? ==> r.1.value == ns[k].attrs[a]
  {
    var (ns', e) := GetAttr(ns, k);
    match e
    case Leaf(_) => (ns', None)
    case Obj(attrs) => (ns', if a in attrs then Some(attrs[a]) else None)
  }

  /** The value `c.k.a` reads, leaving aside the vivification it causes. */
  function Attr(ns: Namespace, k: string, a: string): Option<Value> {
    ReadAttr(ns, k, a).1
  }

  /** Reading a top-level name twice gives the same entry and namespace as reading it once. */
  lemma GetAttrIdempotent(ns: Namespace, k: string)
    ensures GetAttr(GetAttr(ns, k).0, k) == GetAttr(ns, k)
    ensures |GetAttr(ns, k).0| == if k in ns then |ns| else |ns| + 1
  {
    if k !in ns {
      assert GetAttr(ns, k).0.Keys == ns.Keys + {k};
    }
  }

  /** An attribute that was just set reads back as the value assigned. */
  lemma SetThenRead(ns: Namespace, k: string, a: string, v: Value)
    requires SetAttr(ns, k, a, v).Ok?
    ensures ReadAttr(SetAttr(ns, k, a, v).value, k, a) == (SetAttr(ns, k, a, v).value, Some(v))
  {
  }

  /** Setting `c.k.a` changes no other attribute readable anywhere in the namespace. */
  lemma SetAttrFrame(ns: Namespace, k: string, a: string, v: Value, k': string, a': string)
    requires SetAttr(ns, k, a, v).Ok?
    requires k' != k || a' != a
    ensures Attr(SetAttr(ns, k, a, v).value, k', a') == Attr(ns, k', a')
  {
  }

  /** A vivified object has no second-level attributes until one is assigned. */
  lemma VivifiedHasNoAttr(ns: Namespace, k: string, a: string)
    requires k !in ns
    ensures Attr(ns, k, a) == None
    ensures Attr(GetAttr(ns, k).0, k, a) == None
  {
  }

  /**
   * The sequence of `test_mock_configurer`: a direct assignment, a two-level
   * assignment, both read back, and an unassigned attribute reported absent.
   */
  lemma MockConfigurerScenario()
    ensures
      var m1 := SetTop(Empty, "SomethingSomething", VStr("hi"));
      var m2 := SetAttr(m1, "FirstLevel", "second_level", VStr("boo"));
      && m2.Ok?
      && GetAttr(m2.value, "SomethingSomething").1 == Leaf(VStr("hi"))
      && ReadAttr(m2.value, "FirstLevel", "second_level").1 == Some(VStr("boo"))
      && ReadAttr(m2.value, "FirstLevel", "non_existent").1 == None
  {
    var m1 := SetTop(Empty, "SomethingSomething", VStr("hi"));
    assert "FirstLevel" != "SomethingSomething";
    var m2 := SetAttr(m1, "FirstLevel", "second_level", VStr("boo"));
    assert "non_existent" != "second_level";
  }
  /** The second-level assignments of one top-level object: attribute name to value. */
  type Section = map<string, Value>

  /**
   * A batch of two-level assignments `c.k.a = v`, grouped by top-level name.
   * Within one batch every target `(k, a)` is assigned at most once.
   */
  type Patch = map<string, Section>

  /** The attributes currently set on `c.k` (none if `k` is missing or a plain value). */
  function AttrsOf(ns: Namespace, k: string): Section {
    if k in ns && ns[k].Obj? then ns[k].attrs else map[]
  }

  /** Top-level names the patch writes into that hold plain values. */
  function Blocked(ns: Namespace, p: Patch): set<string> {
    set k | k in p && k in ns && ns[k].Leaf?
  }

  /** The namespace after every assignment of `p`, written into fresh objects where needed. */
  function Patched(ns: Namespace, p: Patch): (r: Namespace)
    ensures r.Keys == ns.Keys + p.Keys
  {
    map k | k in ns.Keys + p.Keys :: if k in p then Obj(AttrsOf(ns, k) + p[k]) else ns[k]
  }

  /**
   * Performs every assignment of the patch on the namespace; fails, naming the
   * offending names, when the patch writes into a plain top-level value.
   */
  function ApplyPatch(ns: Namespace, p: Patch): (r: Result<Namespace, Error>)
    ensures r.Err? <==> exists k :: k in p && k in ns && ns[k].Leaf?
    ensures r.Err? ==> r.error == NotAnObject(Blocked(ns, p))
    ensures r.Ok? ==> r.value.Keys == ns.Keys + p.Keys
    ensures r.Ok? ==> forall k :: k in ns && k !in p ==> r.value[k] == ns[k]
  {
    var bad := Blocked(ns, p);
    if bad != {} then
      Err(NotAnObject(bad))
    else
      assert forall k :: k in p && k in ns ==> k !in bad;
      Ok(Patched(ns, p))
  }

  /**
   * After a successful patch, every patched attribute reads back as the
   * patch's value and every other attribute reads as it did before.
   */
  lemma ApplyPatchReads(ns: Namespace, p: Patch, k: string, a: string)
    requires ApplyPatch(ns, p).Ok?
    ensures k in p && a in p[k] ==> Attr(ApplyPatch(ns, p).value, k, a) == Some(p[k][a])
    ensures !(k in p && a in p[k]) ==> Attr(ApplyPatch(ns, p).value, k, a) == Attr(ns, k, a)
  {
  }

  /** Applying a patch whose second half is `q`: the first patch's failure, or `q` applied to its result. */
  function Then(r: Result<Namespace, Error>, q: Patch): Result<Namespace, Error> {
    match r
    case Ok(ns) => ApplyPatch(ns, q)
    case Err(e) => Err(e)
  }

  /** The section of `p` for `k`, empty when `p` does not write into `k`. */
  function SectionOf(p: Patch, k: string): Section {
    if k in p then p[k] else map[]
  }

  /** One patch doing the assignments of `p` and then those of `q`; `q` wins on a shared target. */
  function PatchUnion(p: Patch, q: Patch): (u: Patch)
    ensures u.Keys == p.Keys + q.Keys
    ensures forall k :: k in u ==> u[k] == SectionOf(p, k) + SectionOf(q, k)
  {
    map k | k in p.Keys + q.Keys :: SectionOf(p, k) + SectionOf(q, k)
  }

  /** The empty section is neutral for union on either side. */
  lemma EmptySectionUnion(s: Section)
    ensures map[] + s == s && s + map[] == s
  {
  }

  lemma SectionOverride(sa: Section, s: Section, x: string, v: Value)
    ensures (sa + s) + map[x := v] == sa + s[x := v]
  {
  }

  lemma PatchUnionOverrideSame(a: Patch, b: Patch, k: string, x: string, v: Value)
    requires k in b
    ensures PatchUnion(a, b[k := b[k][x := v]])[k] == PatchUnion(PatchUnion(a, b), map[k := map[x := v]])[k]
  {
    var sa := SectionOf(a, k);
    assert PatchUnion(a, b[k := b[k][x := v]])[k] == sa + b[k][x := v];
    assert PatchUnion(PatchUnion(a, b), map[k := map[x := v]])[k] == (sa + b[k]) + map[x := v];
    SectionOverride(sa, b[k], x, v);
  }

  lemma PatchUnionOverrideOther(a: Patch, b: Patch, k: string, x: string, v: Value, j: string)
    requires k in b && j != k && j in PatchUnion(a, b)
    ensures PatchUnion(a, b[k := b[k][x := v]])[j] == PatchUnion(PatchUnion(a, b), map[k := map[x := v]])[j]
  {
    var q: Patch := map[k := map[x := v]];
    var u := PatchUnion(a, b);
    assert SectionOf(q, j) == map[];
    assert u[j] + map[] == u[j];
  }

  /** Changing one assignment of the later of two patches is one more assignment after their union. */
  lemma PatchUnionOverride(a: Patch, b: Patch, k: string, x: string, v: Value)
    requires k in b
    ensures PatchUnion(a, b[k := b[k][x := v]]) == PatchUnion(PatchUnion(a, b), map[k := map[x := v]])
  {
    var l := PatchUnion(a, b[k := b[k][x := v]]);
    var r := PatchUnion(PatchUnion(a, b), map[k := map[x := v]]);
    assert b[k := b[k][x := v]].Keys == b.Keys;
    assert l.Keys == r.Keys;
    forall j | j in l ensures l[j] == r[j] {
      if j == k {
        PatchUnionOverrideSame(a, b, k, x, v);
      } else {
        PatchUnionOverrideOther(a, b, k, x, v, j);
      }
    }
    assert l == r;
  }

  /** Patches that assign no common target. */
  predicate Disjoint(p: Patch, q: Patch) {
    forall k :: k in p && k in q ==> p[k].Keys !! q[k].Keys
  }

  /** A patch with a single assignment is exactly the statement `c.k.a = v`. */
  lemma ApplyPatchSingle(ns: Namespace, k: string, a: string, v: Value)
    ensures ApplyPatch(ns, map[k := map[a := v]]) == SetAttr(ns, k, a, v)
  {
    var p := map[k := map[a := v]];
    if k in ns && ns[k].Leaf? {
      assert Blocked(ns, p) == {k};
    } else {
      assert Blocked(ns, p) == {};
      var r := Patched(ns, p);
      var s := SetAttr(ns, k, a, v).value;
      assert AttrsOf(ns, k) + map[a := v] == AttrsOf(ns, k)[a := v];
      assert r[k] == s[k];
      assert r == s;
    }
  }

  /** What one name holds after a patch: patched objects gain the patch's attributes. */
  lemma PatchedAt(ns: Namespace, p: Patch, k: string)
    ensures k in p ==> Patched(ns, p)[k] == Obj(AttrsOf(ns, k) + p[k])
    ensures k !in p && k in ns ==> Patched(ns, p)[k] == ns[k]
    ensures AttrsOf(Patched(ns, p), k) == AttrsOf(ns, k) + SectionOf(p, k)
  {
    assert AttrsOf(ns, k) + map[] == AttrsOf(ns, k);
  }

  /** Map union is associative; the later map wins on shared keys either way. */
  lemma SectionUnionAssoc(a: Section, b: Section, c: Section)
    ensures (a + b) + c == a + (b + c)
  {
  }

  lemma PatchedSequentialAt(ns: Namespace, p: Patch, q: Patch, k: string)
    requires k in ns || k in p || k in q
    ensures Patched(Patched(ns, p), q)[k] == Patched(ns, PatchUnion(p, q))[k]
  {
    var r1 := Patched(ns, p);
    var u := PatchUnion(p, q);
    PatchedAt(ns, p, k);
    PatchedAt(r1, q, k);
    PatchedAt(ns, u, k);
    if k in u {
      SectionUnionAssoc(AttrsOf(ns, k), SectionOf(p, k), SectionOf(q, k));
    }
  }

  /** Writing `p` and then `q` leaves the namespace that writing their union does. */
  lemma PatchedSequential(ns: Namespace, p: Patch, q: Patch)
    ensures Patched(Patched(ns, p), q) == Patched(ns, PatchUnion(p, q))
  {
    var r2 := Patched(Patched(ns, p), q);
    var ru := Patched(ns, PatchUnion(p, q));
    forall k | k in ru ensures r2[k] == ru[k] {
      PatchedSequentialAt(ns, p, q, k);
    }
  }

  /** After a patch that succeeded, a second patch is blocked exactly where their union is blocked. */
  lemma BlockedSequential(ns: Namespace, p: Patch, q: Patch)
    requires Blocked(ns, p) == {}
    ensures Blocked(Patched(ns, p), q) == Blocked(ns, PatchUnion(p, q))
  {
    var r1 := Patched(ns, p);
    var u := PatchUnion(p, q);
    forall k | k in Blocked(r1, q) ensures k in Blocked(ns, u) {
      PatchedAt(ns, p, k);
    }
    forall k | k in Blocked(ns, u) ensures k in Blocked(r1, q) {
      assert k !in Blocked(ns, p);
      PatchedAt(ns, p, k);
    }
  }

  /** A name that blocks a patch also blocks its union with any other. */
  lemma BlockedUnion(ns: Namespace, p: Patch, q: Patch)
    ensures Blocked(ns, p) <= Blocked(ns, PatchUnion(p, q))
  {
  }

  /** Applying two patches one after the other succeeds exactly when applying their union does, with the same result. */
  lemma ApplyPatchSequential(ns: Namespace, p: Patch, q: Patch)
    ensures Then(ApplyPatch(ns, p), q).Ok? <==> ApplyPatch(ns, PatchUnion(p, q)).Ok?
    ensures Then(ApplyPatch(ns, p), q).Ok? ==> Then(ApplyPatch(ns, p), q) == ApplyPatch(ns, PatchUnion(p, q))
  {
    var u := PatchUnion(p, q);
    if Blocked(ns, p) == {} {
      BlockedSequential(ns, p, q);
      PatchedSequential(ns, p, q);
    } else {
      BlockedUnion(ns, p, q);
    }
  }

  /** A patch united with itself is the same patch. */
  lemma PatchUnionSelf(p: Patch)
    ensures PatchUnion(p, p) == p
  {
    var u := PatchUnion(p, p);
    forall k | k in u ensures u[k] == p[k] {
      assert p[k] + p[k] == p[k];
    }
  }

  /** Once applied, applying the same patch again changes nothing. */
  lemma ApplyPatchIdempotent(ns: Namespace, p: Patch)
    requires ApplyPatch(ns, p).Ok?
    ensures ApplyPatch(ApplyPatch(ns, p).value, p) == ApplyPatch(ns, p)
  {
    var r := Patched(ns, p);
    forall k | k in p && k in r ensures r[k].Obj? {
      PatchedAt(ns, p, k);
    }
    assert Blocked(r, p) == {};
    PatchedSequential(ns, p, p);
    PatchUnionSelf(p);
  }

  /** The union of two patches that assign no common target does not depend on their order. */
  lemma PatchUnionDisjoint(p: Patch, q: Patch)
    requires Disjoint(p, q)
    ensures PatchUnion(p, q) == PatchUnion(q, p)
  {
    var u := PatchUnion(p, q);
    var w := PatchUnion(q, p);
    forall k | k in u ensures u[k] == w[k] {
      var sp, sq := SectionOf(p, k), SectionOf(q, k);
      assert sp.Keys !! sq.Keys;
      assert sp + sq == sq + sp;
    }
  }

  /** Two patches that assign no common target may be applied in either order. */
  lemma ApplyPatchCommutes(ns: Namespace, p: Patch, q: Patch)
    requires Disjoint(p, q)
    ensures Then(ApplyPatch(ns, p), q).Ok? <==> Then(ApplyPatch(ns, q), p).Ok?
    ensures Then(ApplyPatch(ns, p), q).Ok? ==> Then(ApplyPatch(ns, p), q) == Then(ApplyPatch(ns, q), p)
  {
    ApplyPatchSequential(ns, p, q);
    ApplyPatchSequential(ns, q, p);
    PatchUnionDisjoint(p, q);
  }

  /** The union of a sequence of patches, later patches winning on shared targets. */
  function UnionAll(ps: seq<Patch>): Patch
    decreases |ps|
  {
    if |ps| == 0 then map[] else PatchUnion(UnionAll(ps[..|ps| - 1]), ps[|ps| - 1])
  }

  /** Applies the patches one after another, stopping at the first failure. */
  function ApplyAll(ns: Namespace, ps: seq<Patch>): Result<Namespace, Error>
    decreases |ps|
  {
    if |ps| == 0 then Ok(ns) else Then(ApplyAll(ns, ps[..|ps| - 1]), ps[|ps| - 1])
  }

  /** Two outcomes that fail together and agree whenever they succeed. */
  predicate Agree(r: Result<Namespace, Error>, r': Result<Namespace, Error>) {
    (r.Ok? <==> r'.Ok?) && (r.Ok? ==> r == r')
  }

  /** The empty patch assigns nothing. */
  lemma ApplyEmptyPatch(ns: Namespace)
    ensures ApplyPatch(ns, map[]) == Ok(ns)
  {
    assert Blocked(ns, map[]) == {};
    assert Patched(ns, map[]) == ns;
  }

  /** Applying patches one after another agrees with applying their union at once. */
  lemma {:induction false} ApplyAllIsUnion(ns: Namespace, ps: seq<Patch>)
    ensures Agree(ApplyAll(ns, ps), ApplyPatch(ns, UnionAll(ps)))
    decreases |ps|
  {
    if |ps| == 0 {
      ApplyEmptyPatch(ns);
    } else {
      var init, last := ps[..|ps| - 1], ps[|ps| - 1];
      ApplyAllIsUnion(ns, init);
      ApplyPatchSequential(ns, UnionAll(init), last);
    }
  }

  /** What a sequence of patches assigns on `k`, later patches winning. */
  function SectionsAt(ps: seq<Patch>, k: string): Section
    decreases |ps|
  {
    if |ps| == 0 then map[] else SectionsAt(ps[..|ps| - 1], k) + SectionOf(ps[|ps| - 1], k)
  }

  /** Every name some patch of the sequence writes into. */
  function KeysAll(ps: seq<Patch>): set<string>
    decreases |ps|
  {
    if |ps| == 0 then {} else KeysAll(ps[..|ps| - 1]) + ps[|ps| - 1].Keys
  }

  /** The union of a sequence writes into the names its members write into, with their combined sections. */
  lemma {:induction false} UnionAllAt(ps: seq<Patch>, k: string)
    ensures UnionAll(ps).Keys == KeysAll(ps)
    ensures SectionOf(UnionAll(ps), k) == SectionsAt(ps, k)
    decreases |ps|
  {
    if |ps| > 0 {
      UnionAllAt(ps[..|ps| - 1], k);
    }
  }

  /** Patches writing into the same names with the same sections are equal. */
  lemma PatchExtensional(p: Patch, q: Patch)
    requires p.Keys == q.Keys
    requires forall k :: SectionOf(p, k) == SectionOf(q, k)
    ensures p == q
  {
    forall k | k in p ensures p[k] == q[k] {
      assert SectionOf(p, k) == SectionOf(q, k);
    }
  }

  /** The sections and names of a five-patch sequence, written out. */
  lemma FivePatches(a: Patch, b: Patch, c: Patch, d: Patch, e: Patch, k: string)
    ensures KeysAll([a, b, c, d, e]) == a.Keys + b.Keys + c.Keys + d.Keys + e.Keys
    ensures SectionsAt([a, b, c, d, e], k)
            == map[] + SectionOf(a, k) + SectionOf(b, k) + SectionOf(c, k) + SectionOf(d, k) + SectionOf(e, k)
  {
    var p1, p2, p3, p4, p5 := [a], [a, b], [a, b, c], [a, b, c, d], [a, b, c, d, e];
    assert p1[..0] == [] && p2[..1] == p1 && p3[..2] == p2 && p4[..3] == p3 && p5[..4] == p4;
    assert KeysAll(p1) == a.Keys;
    assert KeysAll(p2) == a.Keys + b.Keys;
    assert KeysAll(p3) == a.Keys + b.Keys + c.Keys;
    assert KeysAll(p4) == a.Keys + b.Keys + c.Keys + d.Keys;
    assert SectionsAt(p1, k) == map[] + SectionOf(a, k);
    assert SectionsAt(p2, k) == map[] + SectionOf(a, k) + SectionOf(b, k);
    assert SectionsAt(p3, k) == map[] + SectionOf(a, k) + SectionOf(b, k) + SectionOf(c, k);
    assert SectionsAt(p4, k) == map[] + SectionOf(a, k) + SectionOf(b, k) + SectionOf(c, k) + SectionOf(d, k);
  }

  /** The union of five patches, name by name. */
  lemma UnionOfFive(a: Patch, b: Patch, c: Patch, d: Patch, e: Patch, k: string)
    ensures UnionAll([a, b, c, d, e]).Keys == a.Keys + b.Keys + c.Keys + d.Keys + e.Keys
    ensures SectionOf(UnionAll([a, b, c, d, e]), k)
            == map[] + SectionOf(a, k) + SectionOf(b, k) + SectionOf(c, k) + SectionOf(d, k) + SectionOf(e, k)
  {
    UnionAllAt([a, b, c, d, e], k);
    FivePatches(a, b, c, d, e, k);
  }
}
