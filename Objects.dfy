/**
 * Objects as their own properties in insertion order, and object spread
 * (`{...target, ...source}`, `Object.assign`) over them.
 */
module Objects {
  import opened Js

  function Names(props: seq<Prop>): (r: seq<string>)
    ensures |r| == |props|
  {
    seq(|props|, i requires 0 <= i < |props| => props[i].name)
  }

  /** Copies one property onto an object: an existing property keeps its
      place and takes the new value; a new one goes last. */
  function Put(target: seq<Prop>, p: Prop): (r: seq<Prop>)
    ensures |r| >= |target|
    ensures |target| > 0 ==> Names(r)[..|target|] == Names(target)
  {
    if target == [] then [p]
    else if target[0].name == p.name then [p] + target[1..]
    else
      var rest := Put(target[1..], p);
      assert Names([target[0]] + rest)[1..] == Names(rest);
      [target[0]] + rest
  }

  /** Object spread `{...target, ...source}`. */
  function Assign(target: seq<Prop>, source: seq<Prop>): (r: seq<Prop>)
    ensures |r| >= |target|
    ensures |target| > 0 ==> Names(r)[..|target|] == Names(target)
    decreases |source|
  {
    if source == [] then target
    else
      var r := Assign(Put(target, source[0]), source[1..]);
      assert Names(r)[..|target|] == Names(r)[..|Put(target, source[0])|][..|target|];
      r
  }

  lemma NamesCons(t: seq<Prop>)
    requires t != []
    ensures Names(t) == [t[0].name] + Names(t[1..])
  {
  }

  lemma NoDuplicatesCons<T>(h: T, rest: seq<T>)
    ensures NoDuplicates([h] + rest) <==> h !in rest && NoDuplicates(rest)
  {
    var s := [h] + rest;
    assert forall i :: 0 <= i < |rest| ==> s[i + 1] == rest[i];
    if NoDuplicates(s) {
      forall i, j | 0 <= i < j < |rest| ensures rest[i] != rest[j] {
        assert s[i + 1] == rest[i] && s[j + 1] == rest[j];
      }
      forall k | 0 <= k < |rest| ensures rest[k] != h {
        assert s[0] == h && s[k + 1] == rest[k];
      }
    }
    if h !in rest && NoDuplicates(rest) {
      forall i, j | 0 <= i < j < |s| ensures s[i] != s[j] {
        if i == 0 {
          assert s[j] == rest[j - 1];
        } else {
          assert s[i] == rest[i - 1] && s[j] == rest[j - 1];
        }
      }
    }
  }

  lemma {:induction false} PutLookup(target: seq<Prop>, p: Prop, name: string)
    requires NoDuplicates(Names(target))
    ensures NoDuplicates(Names(Put(target, p)))
    ensures Lookup(Put(target, p), name) == if name == p.name then Some(p.value) else Lookup(target, name)
    decreases |target|
  {
    if target == [] {
      assert Put(target, p) == [p] + [];
      LookupCons(p, [], name);
    } else {
      var t0, tail := target[0], target[1..];
      assert target == [t0] + tail;
      NamesCons(target);
      NoDuplicatesCons(t0.name, Names(tail));
      LookupCons(t0, tail, name);
      if t0.name == p.name {
        var r := [p] + tail;
        assert r[1..] == tail;
        NamesCons(r);
        NoDuplicatesCons(p.name, Names(tail));
        LookupCons(p, tail, name);
      } else {
        var rest := Put(tail, p);
        var r := [t0] + rest;
        assert r[1..] == rest;
        PutLookup(tail, p, name);
        PutNames(tail, p);
        NamesCons(r);
        NoDuplicatesCons(t0.name, Names(rest));
        LookupCons(t0, rest, name);
      }
    }
  }

  lemma {:induction false} PutNames(target: seq<Prop>, p: Prop)
    ensures forall n :: n in Names(Put(target, p)) <==> n in Names(target) || n == p.name
    decreases |target|
  {
    if target == [] {
      assert Names(Put(target, p)) == [p.name];
    } else {
      NamesCons(target);
      if target[0].name != p.name {
        var r := [target[0]] + Put(target[1..], p);
        assert r[1..] == Put(target[1..], p);
        PutNames(target[1..], p);
        NamesCons(r);
      } else {
        var r := [p] + target[1..];
        assert r[1..] == target[1..];
        NamesCons(r);
      }
    }
  }

  /** Looking past the first property is looking in the rest, unless the
      name is the first one's and the rest does not have it. */
  lemma {:induction false} LookupCons(p: Prop, rest: seq<Prop>, name: string)
    requires p.name == name ==> name !in Names(rest)
    ensures Lookup([p] + rest, name) == if name == p.name then Some(p.value) else Lookup(rest, name)
    decreases |rest|
  {
    if rest != [] {
      var n := |rest| - 1;
      assert ([p] + rest)[..|rest|] == [p] + rest[..n];
      assert Names(rest)[n] == rest[n].name;
      assert forall m :: m in Names(rest[..n]) ==> m in Names(rest) by {
        forall m | m in Names(rest[..n]) ensures m in Names(rest) {
          var k :| 0 <= k < n && Names(rest[..n])[k] == m;
          assert Names(rest)[k] == m;
        }
      }
      LookupCons(p, rest[..n], name);
    }
  }

  lemma {:induction false} AssignLookup(target: seq<Prop>, source: seq<Prop>, name: string)
    requires NoDuplicates(Names(target))
    ensures NoDuplicates(Names(Assign(target, source)))
    ensures Lookup(Assign(target, source), name)
         == if Lookup(source, name).Some? then Lookup(source, name) else Lookup(target, name)
    decreases |source|
  {
    if source != [] {
      var p := source[0];
      PutLookup(target, p, name);
      AssignLookup(Put(target, p), source[1..], name);
      LookupFront(p, source[1..], name);
      assert source == [p] + source[1..];
    }
  }

  /** Looking up in `[p] + rest` finds `rest`'s value when it has one. */
  lemma {:induction false} LookupFront(p: Prop, rest: seq<Prop>, name: string)
    ensures Lookup([p] + rest, name)
         == if Lookup(rest, name).Some? then Lookup(rest, name)
            else if p.name == name then Some(p.value) else None
    decreases |rest|
  {
    if rest != [] {
      var n := |rest| - 1;
      assert ([p] + rest)[..|rest|] == [p] + rest[..n];
      LookupFront(p, rest[..n], name);
    }
  }

  /** Looking up in `a + b` finds `b`'s value when it has one. */
  lemma {:induction false} LookupAppend(a: seq<Prop>, b: seq<Prop>, name: string)
    ensures Lookup(a + b, name) == if Lookup(b, name).Some? then Lookup(b, name) else Lookup(a, name)
    decreases |b|
  {
    if b != [] {
      var n := |b| - 1;
      assert (a + b)[..|a + b| - 1] == a + b[..n];
      LookupAppend(a, b[..n], name);
    } else {
      assert a + b == a;
    }
  }

  /** A property the object does not have yet goes last. */
  lemma {:induction false} PutNew(target: seq<Prop>, p: Prop)
    requires p.name !in Names(target)
    ensures Put(target, p) == target + [p]
    decreases |target|
  {
    if target != [] {
      NamesCons(target);
      PutNew(target[1..], p);
      assert target == [target[0]] + target[1..];
    }
  }

  /** Appending an element not yet present keeps a sequence free of repeats. */
  lemma NoDuplicatesSnoc<T>(s: seq<T>, x: T)
    requires NoDuplicates(s) && x !in s
    ensures NoDuplicates(s + [x])
  {
    var r := s + [x];
    forall i, j | 0 <= i < j < |r| ensures r[i] != r[j] {
      if j == |s| {
        assert r[i] == s[i];
      }
    }
  }

  /** Dropping the last element keeps a sequence free of repeats, and that
      element is not among the rest. */
  lemma NoDuplicatesInit<T>(s: seq<T>)
    requires NoDuplicates(s) && s != []
    ensures NoDuplicates(s[..|s| - 1]) && s[|s| - 1] !in s[..|s| - 1]
  {
    var n := |s| - 1;
    forall k | 0 <= k < n ensures s[..n][k] != s[n] {
      assert s[..n][k] == s[k];
    }
  }
}
