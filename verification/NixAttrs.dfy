/** How Nix puts the attribute paths of one set together while it parses it. */
module NixAttrs {
  import opened Basics
  import opened NixGenerator

  /** What is defined under a name: an attribute set that can still take more, or any other expression. */
  datatype Def = Leaf | Set(attrs: map<string, Def>)

  type Attributes = map<string, Def>

  function DefOf(v: Value): Def {
    match v
    case Attrs(fields) => Set(map k | k in fields :: DefOf(fields[k]))
    case _ => Leaf
  }

  predicate Apart(a: Attributes, b: Attributes) {
    forall k <- a :: k !in b
  }

  /** Defines one attribute path, or nothing when an attribute on the way, or the whole path, is already
      defined. A path may run through a set; and a set may be defined twice, if the two have no attribute
      in common. */
  function Add(t: Attributes, path: seq<string>, d: Def): Option<Attributes>
    requires path != []
    decreases |path|
  {
    var k := path[0];
    if |path| == 1 then
      if k !in t then Some(t[k := d])
      else if t[k].Set? && d.Set? && Apart(t[k].attrs, d.attrs) then Some(t[k := Set(t[k].attrs + d.attrs)])
      else None
    else if k in t && t[k].Leaf? then None
    else
      match Add(if k in t then t[k].attrs else map[], path[1..], d)
      case None => None
      case Some(inner) => Some(t[k := Set(inner)])
  }

  /** Nothing is in the way of a name that is not there. */
  lemma {:induction false} AddWhereFree(t: Attributes, path: seq<string>, d: Def)
    requires path != [] && path[0] !in t
    ensures Add(t, path, d).Some?
    decreases |path|
  {
    if |path| > 1 {
      AddWhereFree(map[], path[1..], d);
    }
  }

  /** The attributes when nothing else is defined. */
  function Alone(path: seq<string>, d: Def): Attributes
    requires path != []
  {
    AddWhereFree(map[], path, d);
    Add(map[], path, d).value
  }

  lemma AddedKeys(t: Attributes, path: seq<string>, d: Def)
    requires path != [] && Add(t, path, d).Some?
    ensures Add(t, path, d).value.Keys == t.Keys + {path[0]}
  {
  }

  /** What two sets without a common name have in the way is what the one or the other has. */
  lemma AddToUnion(a: Attributes, b: Attributes, path: seq<string>, d: Def)
    requires path != [] && Apart(a, b)
    ensures Add(a + b, path, d).Some? <==> Add(a, path, d).Some? && Add(b, path, d).Some?
  {
    if path[0] !in a {
      AddWhereFree(a, path, d);
    }
    if path[0] !in b {
      AddWhereFree(b, path, d);
    }
  }

  /** After one definition, what is in the way of another was there before, or is the first one itself. */
  lemma {:induction false} AfterOneMore(t: Attributes, p: seq<string>, d: Def, q: seq<string>, e: Def)
    requires p != [] && q != [] && Add(t, p, d).Some?
    ensures Add(Add(t, p, d).value, q, e).Some? <==> Add(t, q, e).Some? && Add(Alone(p, d), q, e).Some?
    decreases |p|, 1
  {
    var k := p[0];
    var t1 := Add(t, p, d).value;
    AddWhereFree(map[], p, d);
    AddedKeys(t, p, d);
    AddedKeys(map[], p, d);
    if q[0] != k {
      AddWhereFree(Alone(p, d), q, e);
      assert q[0] in t1 <==> q[0] in t;
    } else if k !in t {
      AddWhereFree(t, q, e);
      assert t1[k] == Alone(p, d)[k];
    } else if |p| == 1 {
      SetTwice(t, p, d, q, e);
    } else {
      DeeperAfterOneMore(t, p, d, q, e);
    }
  }

  lemma SetTwice(t: Attributes, p: seq<string>, d: Def, q: seq<string>, e: Def)
    requires |p| == 1 && q != [] && q[0] == p[0] && p[0] in t && Add(t, p, d).Some?
    ensures Add(Add(t, p, d).value, q, e).Some? <==> Add(t, q, e).Some? && Add(Alone(p, d), q, e).Some?
  {
    var before := t[p[0]].attrs;
    if |q| > 1 {
      AddToUnion(before, d.attrs, q[1..], e);
    } else {
      assert e.Set? ==> (Apart(before + d.attrs, e.attrs) <==> Apart(before, e.attrs) && Apart(d.attrs, e.attrs)) by {
        assert (before + d.attrs).Keys == before.Keys + d.attrs.Keys;
      }
    }
  }

  lemma {:induction false} DeeperAfterOneMore(t: Attributes, p: seq<string>, d: Def, q: seq<string>, e: Def)
    requires |p| > 1 && q != [] && q[0] == p[0] && p[0] in t && Add(t, p, d).Some?
    ensures Add(Add(t, p, d).value, q, e).Some? <==> Add(t, q, e).Some? && Add(Alone(p, d), q, e).Some?
    decreases |p|, 0
  {
    var inner := t[p[0]].attrs;
    AddWhereFree(map[], p[1..], d);
    assert Alone(p, d) == map[p[0] := Set(Alone(p[1..], d))];
    AddedKeys(inner, p[1..], d);
    AddedKeys(map[], p[1..], d);
    if |q| > 1 {
      AfterOneMore(inner, p[1..], d, q[1..], e);
    }
  }

  /** A definition: a path and what it is given. */
  type Definition = d: (seq<string>, Def) | d.0 != [] witness (["x"], Leaf)

  /** Defines one after the other. */
  function AddAll(t: Attributes, ds: seq<Definition>): Option<Attributes>
    decreases |ds|
  {
    if ds == [] then Some(t) else
      match Add(t, ds[0].0, ds[0].1)
      case None => None
      case Some(next) => AddAll(next, ds[1..])
  }

  /** The second definition finds nothing in the way when only the first has been made. */
  predicate Agree(a: Definition, b: Definition) {
    Add(Alone(a.0, a.1), b.0, b.1).Some?
  }

  predicate PairwiseAgree(ds: seq<Definition>) {
    forall i, j :: 0 <= i < j < |ds| ==> Agree(ds[i], ds[j])
  }

  lemma {:induction false} AddAllExactly(t: Attributes, ds: seq<Definition>)
    ensures AddAll(t, ds).Some? <==> PairwiseAgree(ds) && forall j :: 0 <= j < |ds| ==> Add(t, ds[j].0, ds[j].1).Some?
    decreases |ds|
  {
    if ds != [] && Add(t, ds[0].0, ds[0].1).Some? {
      var next := Add(t, ds[0].0, ds[0].1).value;
      var rest := ds[1..];
      AddAllExactly(next, rest);
      forall j | 1 <= j < |ds|
        ensures Add(next, ds[j].0, ds[j].1).Some? <==> Add(t, ds[j].0, ds[j].1).Some? && Agree(ds[0], ds[j])
        ensures rest[j - 1] == ds[j]
      {
        AfterOneMore(t, ds[0].0, ds[0].1, ds[j].0, ds[j].1);
      }
      assert forall j :: 0 <= j < |rest| ==> rest[j] == ds[j + 1];
      PairwiseSplits(ds);
    }
  }

  lemma PairwiseSplits(ds: seq<Definition>)
    requires ds != []
    ensures PairwiseAgree(ds) <==> PairwiseAgree(ds[1..]) && forall j :: 1 <= j < |ds| ==> Agree(ds[0], ds[j])
  {
    if PairwiseAgree(ds[1..]) && forall j :: 1 <= j < |ds| ==> Agree(ds[0], ds[j]) {
      forall i, j | 0 <= i < j < |ds| ensures Agree(ds[i], ds[j]) {
        if i > 0 {
          assert Agree(ds[1..][i - 1], ds[1..][j - 1]);
        }
      }
    }
    if PairwiseAgree(ds) {
      forall i, j | 0 <= i < j < |ds[1..]| ensures Agree(ds[1..][i], ds[1..][j]) {
        assert Agree(ds[i + 1], ds[j + 1]);
      }
    }
  }

  /** A whole set of definitions is accepted exactly when each two of them are. */
  lemma AcceptedExactly(ds: seq<Definition>)
    ensures AddAll(map[], ds).Some? <==> PairwiseAgree(ds)
  {
    AddAllExactly(map[], ds);
    forall j | 0 <= j < |ds| ensures Add(map[], ds[j].0, ds[j].1).Some? {
      AddWhereFree(map[], ds[j].0, ds[j].1);
    }
  }

  /** The second path runs through the first or is the same. */
  predicate Prefix(a: seq<string>, b: seq<string>)
    decreases |a|
  {
    a == [] || (b != [] && a[0] == b[0] && Prefix(a[1..], b[1..]))
  }

  /** Paths that part somewhere never get in each other's way; a path that equals or runs through an
      earlier one that is no attribute set always does. */
  lemma {:induction false} AgreeWhenApart(p: seq<string>, d: Def, q: seq<string>, e: Def)
    requires p != [] && q != []
    ensures !Prefix(p, q) && !Prefix(q, p) ==> Add(Alone(p, d), q, e).Some?
    ensures Prefix(p, q) && d.Leaf? ==> Add(Alone(p, d), q, e).None?
    decreases |p|
  {
    AddWhereFree(map[], p, d);
    AddedKeys(map[], p, d);
    if q[0] != p[0] {
      AddWhereFree(Alone(p, d), q, e);
    } else if |p| > 1 {
      AddWhereFree(map[], p[1..], d);
      assert Alone(p, d) == map[p[0] := Set(Alone(p[1..], d))];
      if |q| > 1 {
        AgreeWhenApart(p[1..], d, q[1..], e);
      } else {
        assert q[1..] == [] && !Prefix(p[1..], []);
        assert Prefix(q, p);
      }
    } else {
      assert p[1..] == [];
      assert Prefix(p, q);
    }
  }
}
