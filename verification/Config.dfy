/** Loading a configuration over defaults (core/config_loader.py) and writing it sparsely
    (core/init_wizard.py).  Values are compared as the host language compares them: a
    number equals a truth value or a number of another kind with the same value. */
module Config {

  datatype Json =
    | Null
    | Bool(b: bool)
    | Int(n: int)
    | Float(x: real)
    | Str(s: string)
    | List(items: seq<Json>)
    | Obj(fields: Fields)

  type Fields = map<string, Json>

  // ---------- equality of the host language ----------

  predicate Numeric(j: Json) {
    j.Bool? || j.Int? || j.Float?
  }

  function Value(j: Json): real
    requires Numeric(j)
  {
    match j
    case Bool(b) => if b then 1.0 else 0.0
    case Int(n) => n as real
    case Float(x) => x
  }

  predicate Same(a: Json, b: Json) {
    match a
    case Obj(f) => b.Obj? && f.Keys == b.fields.Keys && forall k :: k in f ==> Same(f[k], b.fields[k])
    case List(xs) => b.List? && |xs| == |b.items| && forall i :: 0 <= i < |xs| ==> Same(xs[i], b.items[i])
    case Null => b.Null?
    case Str(_) => a == b
    case _ => Numeric(b) && Value(a) == Value(b)
  }

  predicate SameFields(a: Fields, b: Fields) {
    Same(Obj(a), Obj(b))
  }

  // ---------- specification ----------

  predicate BothObj(a: Fields, b: Fields, k: string) {
    k in a && k in b && a[k].Obj? && b[k].Obj?
  }

  function Merge(base: Fields, over: Fields): (r: Fields)
    ensures r.Keys == base.Keys + over.Keys
    decreases Obj(over)
  {
    map k | k in base.Keys + over.Keys ::
      if BothObj(base, over, k) then Obj(Merge(base[k].fields, over[k].fields))
      else if k in over then over[k] else base[k]
  }

  function MergeAll(base: Fields, fragments: seq<Fields>): Fields
    decreases |fragments|
  {
    if fragments == [] then base else MergeAll(Merge(base, fragments[0]), fragments[1..])
  }

  /** What the program runs with. */
  function Loaded(defaults: Fields, file: Fields): Fields {
    Merge(defaults, file)
  }

  /** A leaf that the defaults already provide. */
  predicate Echo(node: Fields, defaults: Fields, k: string) {
    k in node && k in defaults && !node[k].Obj? && Same(node[k], defaults[k])
  }

  function Strip(node: Fields, defaults: Fields): (r: Fields)
    ensures r.Keys <= node.Keys
    ensures forall k :: k in node ==> (k in r <==> !Echo(node, defaults, k))
    decreases Obj(node)
  {
    map k | k in node.Keys && !Echo(node, defaults, k) ::
      if BothObj(node, defaults, k) then Obj(Strip(node[k].fields, defaults[k].fields)) else node[k]
  }

  predicate NestedMissing(defaults: Fields, existing: Fields)
    decreases Obj(defaults)
  {
    exists k :: k in defaults &&
      (k !in existing || (BothObj(defaults, existing, k) && NestedMissing(defaults[k].fields, existing[k].fields)))
  }

  /** Sections with something to fill in. */
  function Sections(defaults: Fields, existing: Fields): set<string> {
    set k | k in defaults &&
      (k !in existing || (BothObj(defaults, existing, k) && NestedMissing(defaults[k].fields, existing[k].fields)))
  }

  function Only(defaults: Fields, keys: set<string>): Fields {
    map k | k in keys && k in defaults :: defaults[k]
  }

  /** The file that the wizard writes. */
  function Written(defaults: Fields, existing: Fields, fragments: seq<Fields>): Fields {
    Strip(MergeAll(if existing == map[] then defaults else existing, fragments), defaults)
  }

  function Backfilled(defaults: Fields, existing: Fields): Fields {
    Written(defaults, existing, [Only(defaults, Sections(defaults, existing))])
  }

  // ---------- the code ----------

  /** Override's entries one by one; nested objects are merged in their own right. */
  method DeepMerge(base: Fields, over: Fields) returns (r: Fields)
    ensures r == Merge(base, over)
    decreases Obj(over), 1
  {
    r := base;
    var done: set<string> := {};
    MergeEnds(base, over);
    while done != over.Keys
      invariant done <= over.Keys
      invariant r == Merge(base, Only(over, done))
      decreases |over.Keys - done|
    {
      var key :| key in over.Keys - done;
      var value := MergeEntry(r, over, key);
      MergeMore(base, over, done, key);
      r := r[key := value];
      SmallerRest(over.Keys, done, key);
      done := done + {key};
    }
  }

  lemma SmallerRest(all: set<string>, done: set<string>, key: string)
    requires key in all - done
    ensures |all - (done + {key})| < |all - done|
  {
    assert all - (done + {key}) == (all - done) - {key};
  }

  lemma MergeEnds(base: Fields, over: Fields)
    ensures Merge(base, Only(over, {})) == base
    ensures Only(over, over.Keys) == over
  {
  }

  method MergeEntry(base: Fields, over: Fields, key: string) returns (value: Json)
    requires key in over
    ensures value == MergedAt(base, over, key)
    decreases Obj(over), 0
  {
    if key in base && base[key].Obj? && over[key].Obj? {
      var inner := DeepMerge(base[key].fields, over[key].fields);
      value := Obj(inner);
    } else {
      value := over[key];
    }
  }

  function MergedAt(base: Fields, over: Fields, key: string): Json
    requires key in over
  {
    if key in base && base[key].Obj? && over[key].Obj? then Obj(Merge(base[key].fields, over[key].fields))
    else over[key]
  }

  lemma MergeMore(base: Fields, over: Fields, done: set<string>, key: string)
    requires key in over && key !in done
    ensures var r := Merge(base, Only(over, done));
            Merge(base, Only(over, done + {key})) == r[key := MergedAt(r, over, key)]
  {
    var part, more := Only(over, done), Only(over, done + {key});
    assert more == part[key := over[key]];
    assert key !in part;
    var r, next := Merge(base, part), Merge(base, more);
    forall k | k in next && k != key ensures k in r && next[k] == r[k] {}
  }

  method StripDefaultEqualLeaves(node: Fields, defaults: Fields) returns (r: Fields)
    ensures r == Strip(node, defaults)
    decreases Obj(node)
  {
    r := map[];
    var keys := node.Keys;
    while keys != {}
      invariant keys <= node.Keys
      invariant r.Keys == Strip(node, defaults).Keys - keys
      invariant forall k :: k in r ==> r[k] == Strip(node, defaults)[k]
      decreases |keys|
    {
      var key :| key in keys;
      keys := keys - {key};
      var value := node[key];
      if value.Obj? {
        if key in defaults && defaults[key].Obj? {
          var inner := StripDefaultEqualLeaves(value.fields, defaults[key].fields);
          r := r[key := Obj(inner)];
        } else {
          r := r[key := value];
        }
      } else if key in defaults && Same(value, defaults[key]) {
        assert Echo(node, defaults, key);
      } else {
        r := r[key := value];
      }
    }
  }

  method FindMissing(defaults: Fields, existing: Fields) returns (missing: bool)
    ensures missing <==> NestedMissing(defaults, existing)
    decreases Obj(defaults)
  {
    var keys := defaults.Keys;
    while keys != {}
      invariant keys <= defaults.Keys
      invariant forall k :: k in defaults && k !in keys ==>
        k in existing && (BothObj(defaults, existing, k) ==> !NestedMissing(defaults[k].fields, existing[k].fields))
      decreases |keys|
    {
      var key :| key in keys;
      keys := keys - {key};
      if key !in existing {
        return true;
      }
      if defaults[key].Obj? && existing[key].Obj? {
        var inner := FindMissing(defaults[key].fields, existing[key].fields);
        if inner {
          return true;
        }
      }
    }
    missing := false;
  }

  method SectionsNeedingBackfill(defaults: Fields, existing: Fields) returns (need: set<string>)
    ensures need == Sections(defaults, existing)
  {
    need := {};
    var keys := defaults.Keys;
    ghost var all := Sections(defaults, existing);
    while keys != {}
      invariant keys <= defaults.Keys
      invariant need == all - keys
      decreases |keys|
    {
      var key :| key in keys;
      KeyDone(all, keys, key);
      keys := keys - {key};
      if key !in existing {
        need := need + {key};
      } else if defaults[key].Obj? && existing[key].Obj? {
        var inner := FindMissing(defaults[key].fields, existing[key].fields);
        if inner {
          need := need + {key};
        }
      }
    }
  }

  lemma KeyDone(all: set<string>, keys: set<string>, key: string)
    requires key in keys
    ensures all - (keys - {key}) == (all - keys) + (if key in all then {key} else {})
  {
  }

  /** The wizard's last steps: without answers it offers to fill in missing sections, and it
      writes nothing that has not been confirmed. */
  method WriteConfig(defaults: Fields, existing: Fields, fragments: seq<Fields>, acceptBackfill: bool, confirm: bool)
    returns (file: Fields, changed: bool)
    ensures changed <==> confirm && (fragments != [] || (acceptBackfill && Sections(defaults, existing) != {}))
    ensures fragments != [] && changed ==> file == Written(defaults, existing, fragments)
    ensures fragments == [] && changed ==> file == Backfilled(defaults, existing)
    ensures !changed ==> file == existing
  {
    var todo := fragments;
    if fragments == [] {
      var need := SectionsNeedingBackfill(defaults, existing);
      if need == {} || !acceptBackfill {
        return existing, false;
      }
      todo := [Only(defaults, need)];
    }
    if !confirm {
      return existing, false;
    }
    var final := if existing == map[] then defaults else existing;
    var i := 0;
    while i < |todo|
      invariant 0 <= i <= |todo|
      invariant MergeAll(final, todo[i..]) == MergeAll(if existing == map[] then defaults else existing, todo)
    {
      assert todo[i..][1..] == todo[i + 1..];
      final := DeepMerge(final, todo[i]);
      i := i + 1;
    }
    file := StripDefaultEqualLeaves(final, defaults);
    changed := true;
  }

  // ---------- equality is an equivalence ----------

  lemma {:induction false} SameRefl(a: Json)
    ensures Same(a, a)
  {
    match a {
      case Obj(f) =>
        forall k | k in f ensures Same(f[k], f[k]) {
          SameRefl(f[k]);
        }
      case List(xs) =>
        forall i | 0 <= i < |xs| ensures Same(xs[i], xs[i]) {
          SameRefl(xs[i]);
        }
      case _ =>
    }
  }

  lemma {:induction false} SameSym(a: Json, b: Json)
    requires Same(a, b)
    ensures Same(b, a)
  {
    match a {
      case Obj(f) =>
        forall k | k in f ensures Same(b.fields[k], f[k]) {
          SameSym(f[k], b.fields[k]);
        }
      case List(xs) =>
        forall i | 0 <= i < |xs| ensures Same(b.items[i], xs[i]) {
          SameSym(xs[i], b.items[i]);
        }
      case _ =>
    }
  }

  lemma {:induction false} SameTrans(a: Json, b: Json, c: Json)
    requires Same(a, b) && Same(b, c)
    ensures Same(a, c)
  {
    match a {
      case Obj(f) =>
        forall k | k in f ensures Same(f[k], c.fields[k]) {
          SameTrans(f[k], b.fields[k], c.fields[k]);
        }
      case List(xs) =>
        forall i | 0 <= i < |xs| ensures Same(xs[i], c.items[i]) {
          SameTrans(xs[i], b.items[i], c.items[i]);
        }
      case _ =>
    }
  }

  /** Every number and truth value as a number of one kind, at any depth. */
  function Normal(j: Json): Json {
    match j
    case Bool(b) => Float(if b then 1.0 else 0.0)
    case Int(n) => Float(n as real)
    case List(items) => List(seq(|items|, i requires 0 <= i < |items| => Normal(items[i])))
    case Obj(fields) => Obj(map k | k in fields :: Normal(fields[k]))
    case _ => j
  }

  /** Equal values are those with the same normal form. */
  lemma {:induction false} SameIff(a: Json, b: Json)
    ensures Same(a, b) <==> Normal(a) == Normal(b)
  {
    if a.Obj? && b.Obj? && a.fields.Keys == b.fields.Keys {
      forall k | k in a.fields ensures Same(a.fields[k], b.fields[k]) <==> Normal(a.fields[k]) == Normal(b.fields[k]) {
        SameIff(a.fields[k], b.fields[k]);
      }
      ObjIff(a.fields, b.fields);
    } else if a.List? && b.List? && |a.items| == |b.items| {
      forall i | 0 <= i < |a.items| ensures Same(a.items[i], b.items[i]) <==> Normal(a.items[i]) == Normal(b.items[i]) {
        SameIff(a.items[i], b.items[i]);
      }
      ListIff(a.items, b.items);
    } else if a.Obj? && b.Obj? {
      assert Normal(a).fields.Keys == a.fields.Keys && Normal(b).fields.Keys == b.fields.Keys;
    } else if a.List? && b.List? {
      assert |Normal(a).items| == |a.items| && |Normal(b).items| == |b.items|;
    }
  }

  lemma ObjIff(a: Fields, b: Fields)
    requires a.Keys == b.Keys
    ensures Normal(Obj(a)) == Normal(Obj(b)) <==> forall k :: k in a ==> Normal(a[k]) == Normal(b[k])
  {
    var x, y := Normal(Obj(a)).fields, Normal(Obj(b)).fields;
    assert x.Keys == a.Keys && y.Keys == b.Keys;
    if x == y {
      forall k | k in a ensures Normal(a[k]) == Normal(b[k]) {
        assert x[k] == y[k];
      }
    }
    if forall k :: k in a ==> Normal(a[k]) == Normal(b[k]) {
      assert x == y;
    }
  }

  lemma ListIff(a: seq<Json>, b: seq<Json>)
    requires |a| == |b|
    ensures Normal(List(a)) == Normal(List(b)) <==> forall i :: 0 <= i < |a| ==> Normal(a[i]) == Normal(b[i])
  {
    var x, y := Normal(List(a)).items, Normal(List(b)).items;
    if x == y {
      forall i | 0 <= i < |a| ensures Normal(a[i]) == Normal(b[i]) {
        assert x[i] == y[i];
      }
    }
    if forall i :: 0 <= i < |a| ==> Normal(a[i]) == Normal(b[i]) {
      assert x == y;
    }
  }

  /** Holds no number and no truth value. */
  predicate Numberless(j: Json) {
    match j
    case Bool(_) => false
    case Int(_) => false
    case Float(_) => false
    case List(items) => forall i :: 0 <= i < |items| ==> Numberless(items[i])
    case Obj(fields) => forall k :: k in fields ==> Numberless(fields[k])
    case _ => true
  }

  /** Such a value equals itself alone. */
  lemma {:induction false} NormalExact(a: Json, b: Json)
    requires Numberless(a) && Normal(a) == Normal(b)
    ensures a == b
  {
    if a.Obj? && b.Obj? {
      assert Normal(a).fields.Keys == a.fields.Keys && Normal(b).fields.Keys == b.fields.Keys;
      ObjIff(a.fields, b.fields);
      forall k | k in a.fields ensures a.fields[k] == b.fields[k] {
        NormalExact(a.fields[k], b.fields[k]);
      }
    } else if a.List? && b.List? {
      assert |Normal(a).items| == |a.items| && |Normal(b).items| == |b.items|;
      ListIff(a.items, b.items);
      forall i | 0 <= i < |a.items| ensures a.items[i] == b.items[i] {
        NormalExact(a.items[i], b.items[i]);
      }
    }
  }

  // ---------- leaves and their paths ----------

  /** Following the keys of the path leads to the plain value v. */
  predicate LeafAt(fields: Fields, path: seq<string>, v: Json)
    decreases |path|
  {
    path != [] && path[0] in fields &&
    if |path| == 1 then fields[path[0]] == v && !v.Obj?
    else fields[path[0]].Obj? && LeafAt(fields[path[0]].fields, path[1..], v)
  }

  /** On the way there `over` has a value of its own: a plain one, or one at the very end. */
  predicate Covers(over: Fields, path: seq<string>)
    decreases |path|
  {
    path != [] && path[0] in over &&
    (|path| == 1 || !over[path[0]].Obj? || Covers(over[path[0]].fields, path[1..]))
  }

  /** A merged tree has the leaves of the upper one, and those of the lower one that the
      upper one does not cover. */
  lemma {:induction false} MergeLeaves(base: Fields, over: Fields, path: seq<string>, v: Json)
    ensures LeafAt(Merge(base, over), path, v) <==>
            LeafAt(over, path, v) || (LeafAt(base, path, v) && !Covers(over, path))
    decreases |path|
  {
    if |path| > 1 && BothObj(base, over, path[0]) {
      MergeLeaves(base[path[0]].fields, over[path[0]].fields, path[1..], v);
    }
  }

  ghost predicate DefaultsHave(defaults: Fields, path: seq<string>, v: Json) {
    exists w :: LeafAt(defaults, path, w) && Normal(w) == Normal(v)
  }

  /** The sparse tree has exactly the leaves that the defaults do not have at their place. */
  lemma {:induction false} StripLeaves(node: Fields, defaults: Fields, path: seq<string>, v: Json)
    ensures LeafAt(Strip(node, defaults), path, v) <==> LeafAt(node, path, v) && !DefaultsHave(defaults, path, v)
    decreases |path|
  {
    if path != [] && path[0] in node {
      var k := path[0];
      if |path| == 1 && !node[k].Obj? {
        LeafDropped(node, defaults, k);
        if k in defaults && Normal(defaults[k]) == Normal(node[k]) {
          assert LeafAt(defaults, path, defaults[k]);
        }
      } else if |path| > 1 && BothObj(node, defaults, k) {
        StripLeaves(node[k].fields, defaults[k].fields, path[1..], v);
        StripBelow(node, defaults, path, v);
      }
    }
  }

  lemma StripBelow(node: Fields, defaults: Fields, path: seq<string>, v: Json)
    requires |path| > 1 && BothObj(node, defaults, path[0])
    ensures DefaultsHave(defaults, path, v) <==> DefaultsHave(defaults[path[0]].fields, path[1..], v)
  {
    if DefaultsHave(defaults, path, v) {
      var w :| LeafAt(defaults, path, w) && Normal(w) == Normal(v);
      assert LeafAt(defaults[path[0]].fields, path[1..], w);
    }
    if DefaultsHave(defaults[path[0]].fields, path[1..], v) {
      var w :| LeafAt(defaults[path[0]].fields, path[1..], w) && Normal(w) == Normal(v);
      assert LeafAt(defaults, path, w);
    }
  }

  /** A leaf is dropped exactly when the default has the same normal form; for a text, a
      list of texts or null that means when it is the default itself. */
  lemma LeafDropped(node: Fields, defaults: Fields, k: string)
    requires k in node && !node[k].Obj?
    ensures k in Strip(node, defaults) ==> Strip(node, defaults)[k] == node[k]
    ensures k !in Strip(node, defaults) <==> k in defaults && Normal(defaults[k]) == Normal(node[k])
    ensures Numberless(node[k]) ==> (k !in Strip(node, defaults) <==> k in defaults && defaults[k] == node[k])
    ensures node[k].Int? && k !in Strip(node, defaults) ==>
      var n := node[k].n;
      defaults[k] in {Int(n), Float(n as real)} || (n == 1 && defaults[k] == Bool(true)) ||
      (n == 0 && defaults[k] == Bool(false))
  {
    if k in defaults {
      SameIff(node[k], defaults[k]);
      if Numberless(node[k]) && Normal(defaults[k]) == Normal(node[k]) {
        NormalExact(node[k], defaults[k]);
      }
    }
  }

  // ---------- sparse writing preserves meaning ----------

  lemma {:induction false} NumberlessFaithful(node: Fields, defaults: Fields)
    requires Numberless(Obj(node))
    ensures Faithful(node, defaults)
    decreases Obj(node)
  {
    forall k | k in node && k in defaults
      ensures BothObj(node, defaults, k) ==> Faithful(node[k].fields, defaults[k].fields)
      ensures Echo(node, defaults, k) ==> node[k] == defaults[k]
    {
      assert Numberless(node[k]);
      if BothObj(node, defaults, k) {
        NumberlessFaithful(node[k].fields, defaults[k].fields);
      } else if Echo(node, defaults, k) {
        SameIff(node[k], defaults[k]);
        NormalExact(node[k], defaults[k]);
      }
    }
  }

  /** Without numbers and truth values the sparse file loads as the very same values. */
  lemma StripExact(node: Fields, defaults: Fields)
    requires Numberless(Obj(node))
    ensures Loaded(defaults, Strip(node, defaults)) == Loaded(defaults, node)
  {
    NumberlessFaithful(node, defaults);
    StripExactIff(node, defaults);
  }

  /** For every configuration and every set of defaults, the stripped file loads as the
      full one would. */
  lemma {:induction false} StripMeaning(node: Fields, defaults: Fields)
    ensures SameFields(Loaded(defaults, Strip(node, defaults)), Loaded(defaults, node))
    decreases Obj(node)
  {
    var a, b := Loaded(defaults, Strip(node, defaults)), Loaded(defaults, node);
    forall k | k in a ensures Same(a[k], b[k]) {
      if BothObj(defaults, node, k) {
        StripMeaning(node[k].fields, defaults[k].fields);
      } else if Echo(node, defaults, k) {
        SameSym(node[k], defaults[k]);
      } else {
        SameRefl(a[k]);
      }
    }
  }

  /** Where a leaf equals its default it also is of the same kind. */
  predicate Faithful(node: Fields, defaults: Fields)
    decreases Obj(node)
  {
    forall k :: k in node && k in defaults ==>
      (BothObj(node, defaults, k) ==> Faithful(node[k].fields, defaults[k].fields)) &&
      (Echo(node, defaults, k) ==> node[k] == defaults[k])
  }

  /** The loaded values are identical, and not merely equal, exactly when no leaf differs
      from its default in kind alone (1, true and 1.0 are equal). */
  lemma {:induction false} StripExactIff(node: Fields, defaults: Fields)
    ensures Loaded(defaults, Strip(node, defaults)) == Loaded(defaults, node) <==> Faithful(node, defaults)
    decreases Obj(node)
  {
    var a, b := Loaded(defaults, Strip(node, defaults)), Loaded(defaults, node);
    forall k | k in node && k in defaults
      ensures a[k] == b[k] <==>
        (BothObj(node, defaults, k) ==> Faithful(node[k].fields, defaults[k].fields)) &&
        (Echo(node, defaults, k) ==> node[k] == defaults[k])
    {
      if BothObj(node, defaults, k) {
        StripExactIff(node[k].fields, defaults[k].fields);
      }
    }
    assert a.Keys == b.Keys;
    if a == b {
      forall k | k in node && k in defaults ensures a[k] == b[k] {}
    }
  }

  /** A flag set to 1 over a default of true is dropped and loads as true. */
  lemma StripKindLost(k: string)
    ensures var node, defaults := map[k := Int(1)], map[k := Bool(true)];
            && Loaded(defaults, Strip(node, defaults)) == defaults
            && Loaded(defaults, node) == node && node != defaults
  {
    var node, defaults: Fields := map[k := Int(1)], map[k := Bool(true)];
    assert Echo(node, defaults, k);
    assert Strip(node, defaults) == map[];
    assert node[k] != defaults[k];
  }

  lemma {:induction false} StripIdempotent(node: Fields, defaults: Fields)
    ensures Strip(Strip(node, defaults), defaults) == Strip(node, defaults)
    decreases Obj(node)
  {
    var once := Strip(node, defaults);
    forall k | k in once ensures !Echo(once, defaults, k) && Strip(once, defaults)[k] == once[k] {
      if BothObj(node, defaults, k) {
        StripIdempotent(node[k].fields, defaults[k].fields);
      }
    }
  }

  /** No leaf, at any depth, equals its default. */
  predicate NoEcho(node: Fields, defaults: Fields)
    decreases Obj(node)
  {
    forall k :: k in node ==>
      !Echo(node, defaults, k) && (BothObj(node, defaults, k) ==> NoEcho(node[k].fields, defaults[k].fields))
  }

  lemma {:induction false} StripNoEcho(node: Fields, defaults: Fields)
    ensures NoEcho(Strip(node, defaults), defaults)
    decreases Obj(node)
  {
    var once := Strip(node, defaults);
    forall k | k in once
      ensures !Echo(once, defaults, k) && (BothObj(once, defaults, k) ==> NoEcho(once[k].fields, defaults[k].fields))
    {
      if BothObj(node, defaults, k) {
        StripNoEcho(node[k].fields, defaults[k].fields);
      }
    }
  }

  /** Every leaf of `part` is in `whole`; objects over default objects need not be written. */
  predicate Within(part: Fields, whole: Fields, defaults: Fields)
    decreases Obj(part)
  {
    forall k :: k in part ==>
      if BothObj(part, defaults, k) then
        (k in whole ==> whole[k].Obj?) &&
        Within(part[k].fields, if k in whole then whole[k].fields else map[], defaults[k].fields)
      else k in whole && Same(whole[k], part[k])
  }

  predicate WithinAt(part: Fields, whole: Fields, defaults: Fields, k: string)
    requires k in part
  {
    if BothObj(part, defaults, k) then
      (k in whole ==> whole[k].Obj?) &&
      Within(part[k].fields, if k in whole then whole[k].fields else map[], defaults[k].fields)
    else k in whole && Same(whole[k], part[k])
  }

  /** The sparse file is the least one: any file with the same loaded meaning contains all
      of its leaves. */
  lemma {:induction false} StripLeast(node: Fields, other: Fields, defaults: Fields)
    requires SameFields(Loaded(defaults, other), Loaded(defaults, node))
    ensures Within(Strip(node, defaults), other, defaults)
    decreases Obj(node)
  {
    var part := Strip(node, defaults);
    forall k | k in part ensures WithinAt(part, other, defaults, k) {
      if BothObj(node, defaults, k) {
        var below := if k in other then other[k] else Obj(map[]);
        LoadedBelow(node, other, defaults, k);
        StripLeast(node[k].fields, below.fields, defaults[k].fields);
      } else {
        LeafKept(node, other, defaults, k);
      }
    }
  }

  lemma LoadedBelow(node: Fields, other: Fields, defaults: Fields, k: string)
    requires SameFields(Loaded(defaults, other), Loaded(defaults, node)) && BothObj(node, defaults, k)
    ensures k in other ==> other[k].Obj?
    ensures var below := if k in other then other[k] else Obj(map[]);
            SameFields(Loaded(defaults[k].fields, below.fields), Loaded(defaults[k].fields, node[k].fields))
  {
    var a, b := Loaded(defaults, other), Loaded(defaults, node);
    assert k in b && Same(a[k], b[k]);
    assert Merge(defaults[k].fields, map[]) == defaults[k].fields;
  }

  lemma LeafKept(node: Fields, other: Fields, defaults: Fields, k: string)
    requires SameFields(Loaded(defaults, other), Loaded(defaults, node))
    requires k in node && !BothObj(node, defaults, k) && !Echo(node, defaults, k)
    ensures k in other && Same(other[k], node[k])
  {
    var a, b := Loaded(defaults, other), Loaded(defaults, node);
    assert k in b && b[k] == node[k];
    assert k in a && Same(a[k], node[k]);
    SameBoth(a[k], node[k]);
  }

  // ---------- backfill ----------

  /** Nothing is missing exactly when loading adds nothing. */
  lemma {:induction false} MissingIff(defaults: Fields, existing: Fields)
    ensures NestedMissing(defaults, existing) <==> Loaded(defaults, existing) != existing
    decreases Obj(defaults)
  {
    var r := Loaded(defaults, existing);
    forall k | BothObj(defaults, existing, k)
      ensures NestedMissing(defaults[k].fields, existing[k].fields) <==> r[k] != existing[k]
    {
      MissingIff(defaults[k].fields, existing[k].fields);
    }
    if !NestedMissing(defaults, existing) {
      assert r.Keys == existing.Keys;
      forall k | k in existing ensures r[k] == existing[k] {}
      assert r == existing;
    }
  }

  lemma SectionsIff(defaults: Fields, existing: Fields, k: string)
    ensures k in Sections(defaults, existing) <==>
      k in defaults && (k !in existing || Loaded(defaults, existing)[k] != existing[k])
  {
    if BothObj(defaults, existing, k) {
      MissingIff(defaults[k].fields, existing[k].fields);
    }
  }

  lemma {:induction false} MergeSelf(d: Fields)
    ensures Merge(d, d) == d
    decreases Obj(d)
  {
    forall k | k in d ensures Merge(d, d)[k] == d[k] {
      if d[k].Obj? {
        MergeSelf(d[k].fields);
      }
    }
  }

  /** Filling in missing values under the existing ones, as documented, never changes an
      existing value and never changes what is loaded. */
  lemma {:induction false} FillKeeps(defaults: Fields, existing: Fields)
    ensures Merge(Merge(defaults, existing), existing) == Merge(defaults, existing)
    ensures Merge(defaults, Merge(defaults, existing)) == Merge(defaults, existing)
    decreases Obj(existing)
  {
    var m := Merge(defaults, existing);
    forall k | k in m ensures Merge(m, existing)[k] == m[k] && Merge(defaults, m)[k] == m[k] {
      if BothObj(defaults, existing, k) {
        FillKeeps(defaults[k].fields, existing[k].fields);
      } else if k in existing {
        if existing[k].Obj? {
          MergeSelf(existing[k].fields);
        }
      } else if defaults[k].Obj? {
        MergeSelf(defaults[k].fields);
      }
    }
  }

  lemma FillMeaning(defaults: Fields, existing: Fields)
    ensures SameFields(Loaded(defaults, Strip(Merge(defaults, existing), defaults)), Loaded(defaults, existing))
  {
    StripMeaning(Merge(defaults, existing), defaults);
    FillKeeps(defaults, existing);
  }

  /** Where both speak, the existing section says what the defaults say. */
  predicate Agrees(existing: Fields, defaults: Fields)
    decreases Obj(existing)
  {
    forall k :: k in existing && k in defaults ==>
      if BothObj(existing, defaults, k) then Agrees(existing[k].fields, defaults[k].fields)
      else Same(existing[k], defaults[k])
  }

  /** Putting a section's defaults over its values keeps the meaning exactly when the two
      agree. */
  lemma {:induction false} OverwriteIff(existing: Fields, defaults: Fields)
    ensures SameFields(Merge(defaults, Merge(existing, defaults)), Merge(defaults, existing)) <==>
            Agrees(existing, defaults)
    decreases Obj(existing)
  {
    var a, b := Merge(defaults, Merge(existing, defaults)), Merge(defaults, existing);
    assert a.Keys == b.Keys;
    forall k | k in a
      ensures Same(a[k], b[k]) <==>
        (k in existing && k in defaults ==>
          if BothObj(existing, defaults, k) then Agrees(existing[k].fields, defaults[k].fields)
          else Same(existing[k], defaults[k]))
    {
      OverwriteAt(existing, defaults, k);
    }
    if Agrees(existing, defaults) {
      forall k | k in a ensures Same(a[k], b[k]) {}
    }
    if SameFields(a, b) {
      forall k | k in existing && k in defaults
        ensures if BothObj(existing, defaults, k) then Agrees(existing[k].fields, defaults[k].fields)
                else Same(existing[k], defaults[k])
      {
        assert Same(a[k], b[k]);
      }
    }
  }

  lemma {:induction false} OverwriteAt(existing: Fields, defaults: Fields, k: string)
    requires k in existing || k in defaults
    ensures Same(Merge(defaults, Merge(existing, defaults))[k], Merge(defaults, existing)[k]) <==>
      (k in existing && k in defaults ==>
        if BothObj(existing, defaults, k) then Agrees(existing[k].fields, defaults[k].fields)
        else Same(existing[k], defaults[k]))
    decreases Obj(existing), 0
  {
    var a, b := Merge(defaults, Merge(existing, defaults)), Merge(defaults, existing);
    if k in existing && k in defaults {
      if BothObj(existing, defaults, k) {
        OverwriteIff(existing[k].fields, defaults[k].fields);
      } else {
        if defaults[k].Obj? {
          MergeSelf(defaults[k].fields);
        }
        assert a[k] == defaults[k] && b[k] == existing[k];
        SameBoth(existing[k], defaults[k]);
      }
    } else if k in existing {
      SameRefl(existing[k]);
    } else {
      if defaults[k].Obj? {
        MergeSelf(defaults[k].fields);
      }
      SameRefl(defaults[k]);
    }
  }

  lemma SameBoth(a: Json, b: Json)
    ensures Same(a, b) <==> Same(b, a)
  {
    if Same(a, b) {
      SameSym(a, b);
    }
    if Same(b, a) {
      SameSym(b, a);
    }
  }

  /** The merge order in use puts defaults over existing values.  Backfilling a file keeps
      its meaning exactly when every section it completes holds no value that differs from
      its default. */
  lemma BackfillIff(defaults: Fields, existing: Fields)
    ensures SameFields(Loaded(defaults, Backfilled(defaults, existing)), Loaded(defaults, existing)) <==>
            SectionsAgree(defaults, existing)
  {
    var fragment := Only(defaults, Sections(defaults, existing));
    var start := if existing == map[] then defaults else existing;
    assert MergeAll(start, [fragment]) == Merge(start, fragment) by {
      assert [fragment][1..] == [];
    }
    StripMeaning(Merge(start, fragment), defaults);
    SameSwap(Loaded(defaults, Backfilled(defaults, existing)), Loaded(defaults, Merge(start, fragment)),
             Loaded(defaults, existing));
    if existing == map[] {
      FreshBackfill(defaults);
    } else {
      CompletedIff(defaults, existing);
    }
  }

  /** A new file starts from the defaults themselves. */
  lemma FreshBackfill(defaults: Fields)
    ensures Loaded(defaults, Merge(defaults, Only(defaults, Sections(defaults, map[])))) == Loaded(defaults, map[])
    ensures SectionsAgree(defaults, map[])
    ensures SameFields(defaults, defaults)
  {
    assert Only(defaults, Sections(defaults, map[])) == defaults;
    MergeSelf(defaults);
    SameRefl(Obj(defaults));
  }

  lemma CompletedIff(defaults: Fields, existing: Fields)
    ensures SectionsAgree(defaults, existing) <==>
            SameFields(Loaded(defaults, Merge(existing, Only(defaults, Sections(defaults, existing)))),
                       Loaded(defaults, existing))
  {
    var b := Loaded(defaults, Merge(existing, Only(defaults, Sections(defaults, existing))));
    var c := Loaded(defaults, existing);
    assert b.Keys == c.Keys;
    forall k | k in b ensures Same(b[k], c[k]) <==> SectionAgrees(defaults, existing, k) {
      BackfillAt(defaults, existing, k);
    }
    if SameFields(b, c) {
      forall k | k in Sections(defaults, existing) ensures SectionAgrees(defaults, existing, k) {
        assert Same(b[k], c[k]);
      }
    }
    if SectionsAgree(defaults, existing) {
      forall k | k in b ensures Same(b[k], c[k]) {
        assert SectionAgrees(defaults, existing, k);
      }
    }
  }

  predicate SectionAgrees(defaults: Fields, existing: Fields, k: string) {
    k in Sections(defaults, existing) && k in existing ==> Agrees(existing[k].fields, defaults[k].fields)
  }

  predicate SectionsAgree(defaults: Fields, existing: Fields) {
    forall k :: k in Sections(defaults, existing) ==> SectionAgrees(defaults, existing, k)
  }

  lemma SameSwap(a: Fields, b: Fields, c: Fields)
    requires SameFields(a, b)
    ensures SameFields(a, c) <==> SameFields(b, c)
  {
    SameSym(Obj(a), Obj(b));
    if SameFields(b, c) {
      SameTrans(Obj(a), Obj(b), Obj(c));
    }
    if SameFields(a, c) {
      SameTrans(Obj(b), Obj(a), Obj(c));
    }
  }

  lemma BackfillAt(defaults: Fields, existing: Fields, k: string)
    requires k in existing || k in defaults
    ensures var need := Sections(defaults, existing);
            var b := Loaded(defaults, Merge(existing, Only(defaults, need)));
            Same(b[k], Loaded(defaults, existing)[k]) <==> SectionAgrees(defaults, existing, k)
  {
    var need := Sections(defaults, existing);
    if k in need && k in existing {
      OverwriteIff(existing[k].fields, defaults[k].fields);
    } else if k in need {
      if defaults[k].Obj? {
        MergeSelf(defaults[k].fields);
      }
      SameRefl(defaults[k]);
    } else {
      SameRefl(Loaded(defaults, existing)[k]);
    }
  }

  /** One missing key in a section resets the section's other values. */
  lemma BackfillOverwrites(section: string, set0: string, missing: string, chosen: int, standard: int)
    requires set0 != missing && chosen != standard
    ensures var defaults := map[section := Obj(map[set0 := Int(standard), missing := Null])];
            var existing := map[section := Obj(map[set0 := Int(chosen)])];
            && section in Sections(defaults, existing)
            && !SameFields(Loaded(defaults, Backfilled(defaults, existing)), Loaded(defaults, existing))
  {
    var d, e: Fields := map[set0 := Int(standard), missing := Null], map[set0 := Int(chosen)];
    var defaults, existing := map[section := Obj(d)], map[section := Obj(e)];
    assert missing in d && missing !in e;
    assert NestedMissing(d, e);
    assert BothObj(defaults, existing, section);
    assert section in Sections(defaults, existing);
    assert set0 in e && set0 in d && !BothObj(e, d, set0) && !Same(e[set0], d[set0]);
    assert !Agrees(e, d);
    assert !SectionAgrees(defaults, existing, section);
    BackfillIff(defaults, existing);
  }

  // ---------- answers given in the wizard ----------

  /** A value of the file stands between two objects that do not fit together without it. */
  predicate Clash(defaults: Fields, existing: Fields, answers: Fields)
    decreases Obj(answers), 1
  {
    exists k :: k in answers && ClashAt(defaults, existing, answers, k)
  }

  predicate ClashAt(defaults: Fields, existing: Fields, answers: Fields, k: string)
    decreases Obj(answers), 0
  {
    BothObj(defaults, answers, k) && k in existing &&
    if existing[k].Obj? then Clash(defaults[k].fields, existing[k].fields, answers[k].fields)
    else NestedMissing(defaults[k].fields, answers[k].fields)
  }

  /** Merging answers into the file before loading is merging them into what was loaded,
      except exactly where a plain value hides a section of the defaults. */
  lemma {:induction false} MergeAssociativeIff(defaults: Fields, existing: Fields, answers: Fields)
    ensures !Clash(defaults, existing, answers) <==>
            (Merge(defaults, Merge(existing, answers)) == Merge(Merge(defaults, existing), answers))
    decreases Obj(answers)
  {
    var a, b := Merge(defaults, Merge(existing, answers)), Merge(Merge(defaults, existing), answers);
    assert a.Keys == b.Keys;
    forall k | k in a
      ensures a[k] == b[k] <==> !ClashAt(defaults, existing, answers, k)
    {
      if BothObj(defaults, answers, k) && k in existing {
        if existing[k].Obj? {
          MergeAssociativeIff(defaults[k].fields, existing[k].fields, answers[k].fields);
        } else {
          MissingIff(defaults[k].fields, answers[k].fields);
        }
      }
    }
    if a == b {
      forall k | k in a ensures a[k] == b[k] {}
    }
    if !Clash(defaults, existing, answers) {
      forall k | k in a ensures a[k] == b[k] {}
    }
  }

  lemma {:induction false} MergeAllLast(base: Fields, fragments: seq<Fields>, last: Fields)
    ensures MergeAll(base, fragments + [last]) == Merge(MergeAll(base, fragments), last)
    decreases |fragments|
  {
    var all := fragments + [last];
    if fragments == [] {
      assert all == [last] && [last][1..] == [];
    } else {
      assert all[1..] == fragments[1..] + [last];
      MergeAllLast(Merge(base, fragments[0]), fragments[1..], last);
    }
  }

  /** The latest answer wins: what it sets is loaded, whatever file, defaults and earlier
      answers say, up to the kind of a number that equals its default. */
  lemma LastAnswerWins(defaults: Fields, existing: Fields, fragments: seq<Fields>, last: Fields,
                       path: seq<string>, v: Json)
    requires LeafAt(last, path, v)
    ensures var file := Written(defaults, existing, fragments + [last]);
            exists w :: LeafAt(Loaded(defaults, file), path, w) && Normal(w) == Normal(v)
  {
    var start := if existing == map[] then defaults else existing;
    var before := MergeAll(start, fragments);
    MergeAllLast(start, fragments, last);
    MergeLeaves(before, last, path, v);
    StripMeaning(Merge(before, last), defaults);
    MergeLeaves(defaults, Merge(before, last), path, v);
    SameSym(Obj(Loaded(defaults, Written(defaults, existing, fragments + [last]))),
            Obj(Loaded(defaults, Merge(before, last))));
    SameLeaf(Loaded(defaults, Merge(before, last)), Loaded(defaults, Strip(Merge(before, last), defaults)), path, v);
  }

  lemma {:induction false} SameLeaf(a: Fields, b: Fields, path: seq<string>, v: Json)
    requires SameFields(a, b) && LeafAt(a, path, v)
    ensures exists w :: LeafAt(b, path, w) && Normal(w) == Normal(v)
    decreases |path|
  {
    var k := path[0];
    assert Same(a[k], b[k]);
    if |path| == 1 {
      SameIff(a[k], b[k]);
      assert LeafAt(b, path, b[k]);
    } else {
      SameLeaf(a[k].fields, b[k].fields, path[1..], v);
      var w :| LeafAt(b[k].fields, path[1..], w) && Normal(w) == Normal(v);
      assert LeafAt(b, path, w);
    }
  }

  predicate Plain(fields: Fields, k: string) {
    k in fields && !fields[k].Obj?
  }

  /** The section under a key; empty when there is none. */
  function Sub(fields: Fields, k: string): Fields {
    if k in fields && fields[k].Obj? then fields[k].fields else map[]
  }

  function Subs(fragments: seq<Fields>, k: string): (r: seq<Fields>)
    ensures |r| == |fragments| && forall i :: 0 <= i < |r| ==> r[i] == Sub(fragments[i], k)
  {
    if fragments == [] then [] else [Sub(fragments[0], k)] + Subs(fragments[1..], k)
  }

  predicate PlainSomewhere(existing: Fields, fragments: seq<Fields>, k: string) {
    Plain(existing, k) || exists i :: 0 <= i < |fragments| && Plain(fragments[i], k)
  }

  /** A section of the defaults for which the file or an answer had a plain value does not
      end as a section that lacks some of the defaults; this at every depth. */
  predicate Restored(defaults: Fields, existing: Fields, fragments: seq<Fields>)
    decreases Obj(defaults), 1
  {
    forall k :: k in defaults && defaults[k].Obj? ==> RestoredAt(defaults, existing, fragments, k)
  }

  predicate RestoredAt(defaults: Fields, existing: Fields, fragments: seq<Fields>, k: string)
    requires k in defaults && defaults[k].Obj?
    decreases Obj(defaults), 0
  {
    var file := MergeAll(existing, fragments);
    if PlainSomewhere(existing, fragments, k) then
      k in file && file[k].Obj? ==> !NestedMissing(defaults[k].fields, file[k].fields)
    else Restored(defaults[k].fields, Sub(existing, k), Subs(fragments, k))
  }

  /** A key whose value in `b` is that in `a`, or nothing over a plain one, ends alike. */
  lemma {:induction false} AlikeAll(a: Fields, b: Fields, fragments: seq<Fields>, k: string)
    requires if k in b then k in a && a[k] == b[k] else k in a ==> !a[k].Obj?
    ensures var x, y := MergeAll(a, fragments), MergeAll(b, fragments);
            if k in y then k in x && x[k] == y[k] else if k in a then k in x && x[k] == a[k] else k !in x
    ensures k in b ==> k in MergeAll(b, fragments)
    decreases |fragments|
  {
    if fragments != [] {
      AlikeAll(Merge(a, fragments[0]), Merge(b, fragments[0]), fragments[1..], k);
    }
  }

  lemma {:induction false} PlainForgets(a: Fields, b: Fields, fragments: seq<Fields>, k: string)
    requires exists i :: 0 <= i < |fragments| && Plain(fragments[i], k)
    ensures k in MergeAll(a, fragments) && k in MergeAll(b, fragments)
    ensures MergeAll(a, fragments)[k] == MergeAll(b, fragments)[k]
    decreases |fragments|
  {
    var x, y, rest := Merge(a, fragments[0]), Merge(b, fragments[0]), fragments[1..];
    if Plain(fragments[0], k) {
      AlikeAll(x, y, rest, k);
      AlikeAll(y, y, rest, k);
      KeyStays(y, rest, k);
    } else {
      var i :| 0 <= i < |fragments| && Plain(fragments[i], k);
      assert Plain(rest[i - 1], k);
      PlainForgets(x, y, rest, k);
    }
  }

  lemma {:induction false} KeyStays(base: Fields, fragments: seq<Fields>, k: string)
    ensures k in MergeAll(base, fragments) <==> k in base || exists i :: 0 <= i < |fragments| && k in fragments[i]
    decreases |fragments|
  {
    if fragments != [] {
      KeyStays(Merge(base, fragments[0]), fragments[1..], k);
      assert forall i :: 0 < i < |fragments| ==> fragments[i] == fragments[1..][i - 1];
    }
  }

  lemma SubMerge(a: Fields, b: Fields, k: string)
    requires !Plain(a, k) && !Plain(b, k)
    ensures !Plain(Merge(a, b), k) && Sub(Merge(a, b), k) == Merge(Sub(a, k), Sub(b, k))
  {
  }

  lemma {:induction false} SubAll(base: Fields, fragments: seq<Fields>, k: string)
    requires !PlainSomewhere(base, fragments, k)
    ensures !Plain(MergeAll(base, fragments), k)
    ensures Sub(MergeAll(base, fragments), k) == MergeAll(Sub(base, k), Subs(fragments, k))
    decreases |fragments|
  {
    if fragments != [] {
      SubMerge(base, fragments[0], k);
      SubAll(Merge(base, fragments[0]), fragments[1..], k);
    }
  }

  lemma MissingSame(defaults: Fields, existing: Fields)
    ensures NestedMissing(defaults, existing) <==> !SameFields(Loaded(defaults, existing), existing)
  {
    if NestedMissing(defaults, existing) {
      MissingDiffers(defaults, existing);
    } else {
      MissingIff(defaults, existing);
      SameRefl(Obj(existing));
    }
  }

  lemma {:induction false} MissingDiffers(defaults: Fields, existing: Fields)
    requires NestedMissing(defaults, existing)
    ensures !SameFields(Loaded(defaults, existing), existing)
    decreases Obj(defaults)
  {
    var k :| k in defaults &&
      (k !in existing || (BothObj(defaults, existing, k) && NestedMissing(defaults[k].fields, existing[k].fields)));
    if k in existing {
      MissingDiffers(defaults[k].fields, existing[k].fields);
    }
  }

  /** Loading a file with answers merged in against the answers merged into what is loaded. */
  lemma {:induction false} RestoredIff(defaults: Fields, existing: Fields, fragments: seq<Fields>)
    ensures SameFields(Merge(defaults, MergeAll(existing, fragments)),
                       MergeAll(Merge(defaults, existing), fragments)) <==>
            Restored(defaults, existing, fragments)
    decreases Obj(defaults), 1
  {
    var a, b := Merge(defaults, MergeAll(existing, fragments)), MergeAll(Merge(defaults, existing), fragments);
    SameKeys(defaults, existing, fragments);
    if Restored(defaults, existing, fragments) {
      forall k | k in a ensures Same(a[k], b[k]) {
        RestoredKey(defaults, existing, fragments, a, b, k);
      }
    } else {
      var k :| k in defaults && defaults[k].Obj? && !RestoredAt(defaults, existing, fragments, k);
      assert k in a && k in b;
      RestoredKey(defaults, existing, fragments, a, b, k);
    }
  }

  lemma SameKeys(defaults: Fields, existing: Fields, fragments: seq<Fields>)
    ensures Merge(defaults, MergeAll(existing, fragments)).Keys == MergeAll(Merge(defaults, existing), fragments).Keys
  {
    forall k
      ensures k in Merge(defaults, MergeAll(existing, fragments)) <==>
              k in MergeAll(Merge(defaults, existing), fragments)
    {
      KeyStays(existing, fragments, k);
      KeyStays(Merge(defaults, existing), fragments, k);
    }
  }

  lemma RestoredKey(defaults: Fields, existing: Fields, fragments: seq<Fields>, a: Fields, b: Fields, k: string)
    requires a == Merge(defaults, MergeAll(existing, fragments)) && b == MergeAll(Merge(defaults, existing), fragments)
    requires k in a && k in b
    ensures Same(a[k], b[k]) <==> (k in defaults && defaults[k].Obj? ==> RestoredAt(defaults, existing, fragments, k))
    decreases Obj(defaults), 0
  {
    if k in defaults && defaults[k].Obj? {
      if PlainSomewhere(existing, fragments, k) {
        HiddenKey(defaults, existing, fragments, k);
      } else {
        SectionKey(defaults, existing, fragments, k);
        RestoredIff(defaults[k].fields, Sub(existing, k), Subs(fragments, k));
      }
    } else {
      LeafKey(defaults, existing, fragments, k);
      SameRefl(b[k]);
    }
  }

  lemma LeafKey(defaults: Fields, existing: Fields, fragments: seq<Fields>, k: string)
    requires !(k in defaults && defaults[k].Obj?) && k in Merge(defaults, MergeAll(existing, fragments))
    ensures k in MergeAll(Merge(defaults, existing), fragments)
    ensures Merge(defaults, MergeAll(existing, fragments))[k] == MergeAll(Merge(defaults, existing), fragments)[k]
  {
    AlikeAll(Merge(defaults, existing), existing, fragments, k);
  }

  lemma HiddenKey(defaults: Fields, existing: Fields, fragments: seq<Fields>, k: string)
    requires k in defaults && defaults[k].Obj? && PlainSomewhere(existing, fragments, k)
    ensures k in MergeAll(existing, fragments) && k in MergeAll(Merge(defaults, existing), fragments)
    ensures var file, b := MergeAll(existing, fragments), MergeAll(Merge(defaults, existing), fragments);
            Same(Merge(defaults, file)[k], b[k]) <==>
              (file[k].Obj? ==> !NestedMissing(defaults[k].fields, file[k].fields))
  {
    var file := MergeAll(existing, fragments);
    PlainKey(defaults, existing, fragments, k);
    SameRefl(file[k]);
    if file[k].Obj? {
      MissingSame(defaults[k].fields, file[k].fields);
    }
  }

  lemma PlainKey(defaults: Fields, existing: Fields, fragments: seq<Fields>, k: string)
    requires PlainSomewhere(existing, fragments, k)
    ensures k in MergeAll(existing, fragments) && k in MergeAll(Merge(defaults, existing), fragments)
    ensures MergeAll(existing, fragments)[k] == MergeAll(Merge(defaults, existing), fragments)[k]
  {
    if Plain(existing, k) {
      KeyStays(existing, fragments, k);
      AlikeAll(Merge(defaults, existing), existing, fragments, k);
    } else {
      PlainForgets(existing, Merge(defaults, existing), fragments, k);
    }
  }

  lemma SectionKey(defaults: Fields, existing: Fields, fragments: seq<Fields>, k: string)
    requires k in defaults && defaults[k].Obj? && !PlainSomewhere(existing, fragments, k)
    ensures var a, b := Merge(defaults, MergeAll(existing, fragments)), MergeAll(Merge(defaults, existing), fragments);
            var d, e, subs := defaults[k].fields, Sub(existing, k), Subs(fragments, k);
            && k in a && a[k] == Obj(Merge(d, MergeAll(e, subs)))
            && k in b && b[k] == Obj(MergeAll(Merge(d, e), subs))
  {
    SubAll(existing, fragments, k);
    SubMerge(defaults, MergeAll(existing, fragments), k);
    SubMerge(defaults, existing, k);
    SubAll(Merge(defaults, existing), fragments, k);
    KeyStays(Merge(defaults, existing), fragments, k);
  }

  /** After the wizard has written its answers the program runs with what it would have
      loaded before, the answers on top in their order, exactly when every section of the
      defaults that a plain value took the place of comes back complete or not at all. */
  lemma AnswersTakeEffectIff(defaults: Fields, existing: Fields, fragments: seq<Fields>)
    ensures SameFields(Loaded(defaults, Written(defaults, existing, fragments)),
                       MergeAll(Loaded(defaults, existing), fragments)) <==>
            Restored(defaults, if existing == map[] then defaults else existing, fragments)
  {
    var start := if existing == map[] then defaults else existing;
    var file := MergeAll(start, fragments);
    StripMeaning(file, defaults);
    MergeSelf(defaults);
    assert Merge(defaults, map[]) == defaults;
    RestoredIff(defaults, start, fragments);
    SameSwap(Loaded(defaults, Written(defaults, existing, fragments)), Loaded(defaults, file),
             MergeAll(Loaded(defaults, existing), fragments));
  }
}
