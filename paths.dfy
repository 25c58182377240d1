/**
  Path lookup in a configuration tree: `get_json_val` splits a path at every
  `/` and indexes the tree once per segment, left to right. `SetAt` is the
  write through such a path that a form performs on its own sub-dictionary.
 */
module Paths {
  import opened Values

  /** Python's `s.split('/')`: never empty, and a leading `/` yields a first segment "". */
  function Split(s: string): (r: seq<string>)
    ensures |r| >= 1
    ensures forall i :: 0 <= i < |r| ==> '/' !in r[i]
  {
    if |s| == 0 then [""]
    else
      var rest := Split(s[1..]);
      if s[0] == '/' then [""] + rest
      else [[s[0]] + rest[0]] + rest[1..]
  }

  /** Python's `'/'.join(segs)`. */
  function Join(segs: seq<string>): string
  {
    if |segs| == 0 then ""
    else if |segs| == 1 then segs[0]
    else segs[0] + "/" + Join(segs[1..])
  }

  lemma {:induction false} JoinSplit(s: string)
    ensures Join(Split(s)) == s
  {
    if |s| > 0 {
      var rest := Split(s[1..]);
      JoinSplit(s[1..]);
      if s[0] == '/' {
        assert Split(s)[1..] == rest;
      } else {
        var r := Split(s);
        assert r[0] == [s[0]] + rest[0] && r[1..] == rest[1..];
        if |rest| == 1 {
          assert s == [s[0]] + s[1..];
        } else {
          assert Join(rest) == rest[0] + "/" + Join(rest[1..]);
          assert s == [s[0]] + s[1..];
        }
      }
    }
  }

  lemma {:induction false} SplitNoSlashPrefix(a: string, t: string)
    requires '/' !in a
    ensures Split(a + t) == [a + Split(t)[0]] + Split(t)[1..]
  {
    if |a| > 0 {
      assert (a + t)[1..] == a[1..] + t;
      assert a[0] in a;
      SplitNoSlashPrefix(a[1..], t);
      assert [a[0]] + (a[1..] + Split(t)[0]) == a + Split(t)[0];
    } else {
      var r := Split(t);
      assert a + t == t && a + r[0] == r[0];
      assert r == [r[0]] + r[1..];
    }
  }

  /** Splitting undoes joining segments that contain no separator. */
  lemma {:induction false} SplitJoin(segs: seq<string>)
    requires |segs| >= 1
    requires forall i :: 0 <= i < |segs| ==> '/' !in segs[i]
    ensures Split(Join(segs)) == segs
  {
    if |segs| == 1 {
      SplitNoSlashPrefix(segs[0], "");
      assert segs[0] + "" == segs[0];
    } else {
      var j := Join(segs[1..]);
      SplitJoin(segs[1..]);
      assert segs[0] + "/" + j == segs[0] + ("/" + j);
      SplitNoSlashPrefix(segs[0], "/" + j);
      assert ("/" + j)[1..] == j;
      assert Split("/" + j) == [""] + segs[1..];
      assert segs[0] + "" == segs[0];
    }
  }

  /** `val[it]`: the value a dictionary holds under the key, or None where Python raises. */
  function Index(v: Json, seg: string): Option<Json>
  {
    if v.JObject? then Get(v.entries, seg) else None
  }

  /**
    `val[it]` succeeds exactly when `val` is a dictionary with the key among
    its keys (otherwise Python raises TypeError or KeyError), and then yields
    a value stored under that key.
   */
  lemma IndexCases(v: Json, seg: string)
    ensures Index(v, seg).Some? <==> v.JObject? && seg in Keys(v.entries)
    ensures Index(v, seg).Some? ==> (seg, Index(v, seg).value) in v.entries
  {
    if v.JObject? {
      GetNone(v.entries, seg);
      if Get(v.entries, seg).Some? {
        GetFound(v.entries, seg);
      }
    }
  }

  /** The value reached from `v` by indexing once per segment, left to right. */
  function Lookup(v: Json, segs: seq<string>): Option<Json>
    decreases segs
  {
    if segs == [] then Some(v)
    else match Index(v, segs[0])
      case None => None
      case Some(w) => Lookup(w, segs[1..])
  }

  /** `get_json_val(dict_arg, path)`; None stands for the exception it raises. */
  method GetJsonVal(root: Json, path: string) returns (r: Option<Json>)
    ensures r == Lookup(root, Split(path))
  {
    var segs := Split(path);
    var val := root;
    var i := 0;
    while i < |segs|
      invariant 0 <= i <= |segs|
      invariant Lookup(root, segs) == Lookup(val, segs[i..])
    {
      var next := Index(val, segs[i]);
      if next.None? {
        return None;
      }
      assert segs[i..][1..] == segs[i + 1..];
      val := next.value;
      i := i + 1;
    }
    r := Some(val);
  }

  /** Looking up a concatenated path is looking up its two parts in turn. */
  lemma {:induction false} LookupAppend(v: Json, a: seq<string>, b: seq<string>)
    ensures Lookup(v, a + b) == match Lookup(v, a)
      case None => None
      case Some(w) => Lookup(w, b)
    decreases a
  {
    if a != [] {
      assert (a + b)[0] == a[0] && (a + b)[1..] == a[1..] + b;
      match Index(v, a[0])
      case None =>
      case Some(w) => LookupAppend(w, a[1..], b);
    } else {
      assert a + b == b;
    }
  }

  /** The lookup fails as soon as one segment is missing, whatever follows it. */
  lemma LookupStopsAtMissing(v: Json, segs: seq<string>, j: nat)
    requires j < |segs|
    requires Lookup(v, segs[..j]).Some?
    requires Index(Lookup(v, segs[..j]).value, segs[j]).None?
    ensures Lookup(v, segs) == None
  {
    assert segs == segs[..j] + segs[j..];
    LookupAppend(v, segs[..j], segs[j..]);
  }

  /** A failed lookup has a first segment that was missing. */
  lemma {:induction false} LookupFailureHasMissing(v: Json, segs: seq<string>)
    requires Lookup(v, segs).None?
    ensures exists j :: 0 <= j < |segs| && Lookup(v, segs[..j]).Some?
                        && Index(Lookup(v, segs[..j]).value, segs[j]).None?
    decreases segs
  {
    assert segs[..0] == [];
    match Index(v, segs[0])
    case None =>
      assert Lookup(v, segs[..0]) == Some(v);
    case Some(w) =>
      LookupFailureHasMissing(w, segs[1..]);
      var j :| 0 <= j < |segs[1..]| && Lookup(w, segs[1..][..j]).Some?
               && Index(Lookup(w, segs[1..][..j]).value, segs[1..][j]).None?;
      assert segs[..j + 1][0] == segs[0] && segs[..j + 1][1..] == segs[1..][..j];
      assert Lookup(v, segs[..j + 1]) == Lookup(w, segs[1..][..j]);
  }

  /** A path with a leading `/` fails unless the root has the key "". */
  lemma LeadingSlashLookup(root: Json, path: string)
    requires |path| > 0 && path[0] == '/'
    requires !Index(root, "").Some?
    ensures Lookup(root, Split(path)) == None
  {
    assert Split(path)[0] == "";
  }

  /** The tree after writing `v` at the position `p` (which must exist). */
  function SetAt(root: Json, p: seq<string>, v: Json): (r: Json)
    requires Lookup(root, p).Some?
    ensures Lookup(r, p) == Some(v)
    decreases |p|
  {
    if p == [] then v
    else
      var child := Index(root, p[0]).value;
      var r := JObject(Put(root.entries, p[0], SetAt(child, p[1..], v)));
      GetPutSame(root.entries, p[0], SetAt(child, p[1..], v));
      r
  }

  /** Reading below the written position sees the written value. */
  lemma {:induction false} LookupBelowSetAt(root: Json, p: seq<string>, v: Json, q: seq<string>)
    requires Lookup(root, p).Some?
    ensures Lookup(SetAt(root, p, v), p + q) == Lookup(v, q)
  {
    LookupAppend(SetAt(root, p, v), p, q);
  }

  /** Writing the value already at a position changes nothing. */
  lemma {:induction false} SetAtSame(root: Json, p: seq<string>)
    requires Lookup(root, p).Some?
    ensures SetAt(root, p, Lookup(root, p).value) == root
    decreases |p|
  {
    if p != [] {
      var child := Index(root, p[0]).value;
      SetAtSame(child, p[1..]);
      PutGet(root.entries, p[0]);
    }
  }

  /** A second write at the same position replaces the first. */
  lemma {:induction false} SetAtSetAt(root: Json, p: seq<string>, a: Json, b: Json)
    requires Lookup(root, p).Some?
    ensures SetAt(SetAt(root, p, a), p, b) == SetAt(root, p, b)
    decreases |p|
  {
    if p != [] {
      var child := Index(root, p[0]).value;
      var r1 := SetAt(root, p, a);
      GetPutSame(root.entries, p[0], SetAt(child, p[1..], a));
      assert Index(r1, p[0]) == Some(SetAt(child, p[1..], a));
      SetAtSetAt(child, p[1..], a, b);
      PutPut(root.entries, p[0], SetAt(child, p[1..], a), SetAt(child, p[1..], b));
    }
  }

  /**
    Writing `x` under key `k` of the dictionary at `p` is writing, at `p`,
    that dictionary with `k` set to `x`: the form's `cfg_obj[k] = x`.
   */
  lemma {:induction false} SetAtChild(root: Json, p: seq<string>, d: Dict<Json>, k: string, x: Json)
    requires Lookup(root, p) == Some(JObject(d))
    ensures Lookup(root, p + [k]) == Index(JObject(d), k)
    ensures Lookup(root, p + [k]).Some? ==> SetAt(root, p + [k], x) == SetAt(root, p, JObject(Put(d, k, x)))
    decreases |p|
  {
    LookupAppend(root, p, [k]);
    if p == [] {
      assert [] + [k] == [k];
      if HasKey(d, k) {
        assert SetAt(JObject(d), [k], x) == JObject(Put(d, k, SetAt(Get(d, k).value, [], x)));
      }
    } else {
      var child := Index(root, p[0]).value;
      assert (p + [k])[0] == p[0] && (p + [k])[1..] == p[1..] + [k];
      SetAtChild(child, p[1..], d, k, x);
    }
  }

  predicate IsPrefix(a: seq<string>, b: seq<string>)
  {
    |a| <= |b| && b[..|a|] == a
  }

  /** A write at `p` leaves every position off `p`'s branch as it was. */
  lemma {:induction false} SetAtFrame(root: Json, p: seq<string>, v: Json, q: seq<string>)
    requires Lookup(root, p).Some?
    requires !IsPrefix(p, q) && !IsPrefix(q, p)
    ensures Lookup(SetAt(root, p, v), q) == Lookup(root, q)
    decreases |p|
  {
    assert p != [] && q != [];
    var child := Index(root, p[0]).value;
    var r := SetAt(root, p, v);
    if q[0] == p[0] {
      GetPutSame(root.entries, p[0], SetAt(child, p[1..], v));
      SetAtFrame(child, p[1..], v, q[1..]);
    } else {
      GetPutOther(root.entries, p[0], SetAt(child, p[1..], v), q[0]);
    }
  }
}
