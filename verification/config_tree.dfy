/** A configuration as the DSLs build it: nested hashes whose leaves are
    scalars or blocks, and ActiveSupport's `Hash#deep_merge!` on it. */
module ConfigTree {
  import opened Common

  /** A hash (`Node`) or any non-hash value (`Leaf`). */
  datatype Tree<K, V> = Leaf(value: V) | Node(children: map<K, Tree<K, V>>)

  /** The empty hash a configuration starts from. */
  function Empty<K, V>(): (t: Tree<K, V>)
    ensures t.Node? && t.children == map[]
  {
    Node(map[])
  }

  /** `a.deep_merge!(b)`: keys of both hashes are kept; on a key present in
      both, two hashes are merged recursively and otherwise `b`'s value
      replaces `a`'s. Merging anything with a non-hash yields that value. */
  function DeepMerge<K, V>(a: Tree<K, V>, b: Tree<K, V>): (m: Tree<K, V>)
    ensures a.Node? && b.Node? ==> m.Node? && m.children.Keys == a.children.Keys + b.children.Keys
    ensures a.Node? && b.Node? ==>
      forall k :: k in a.children && k !in b.children ==> m.children[k] == a.children[k]
    ensures a.Node? && b.Node? ==>
      forall k :: k in b.children && k !in a.children ==> m.children[k] == b.children[k]
    ensures a.Leaf? || b.Leaf? ==> m == b
  {
    if a.Node? && b.Node? then
      Node(map k | k in a.children.Keys + b.children.Keys ::
        if k in a.children && k in b.children then DeepMerge(a.children[k], b.children[k])
        else if k in b.children then b.children[k]
        else a.children[k])
    else b
  }

  /** The value reached by following the keys of `path` from `t`, if every
      step meets a hash that holds the key. */
  function Lookup<K, V>(t: Tree<K, V>, path: seq<K>): Option<Tree<K, V>>
  {
    if |path| == 0 then Some(t)
    else if t.Node? && path[0] in t.children then Lookup(t.children[path[0]], path[1..])
    else None
  }

  /** Following `p + q` is following `p`, then `q` from where `p` led. */
  lemma {:induction false} LookupAppend<K, V>(t: Tree<K, V>, p: seq<K>, q: seq<K>)
    ensures Lookup(t, p + q) == (if Lookup(t, p).Some? then Lookup(Lookup(t, p).value, q) else None)
  {
    if |p| > 0 {
      assert (p + q)[0] == p[0];
      assert (p + q)[1..] == p[1..] + q;
      if t.Node? && p[0] in t.children {
        LookupAppend(t.children[p[0]], p[1..], q);
      }
    } else {
      assert p + q == q;
    }
  }

  /** Following one key. */
  lemma LookupOne<K, V>(t: Tree<K, V>, k: K)
    ensures Lookup(t, [k]) == (if t.Node? && k in t.children then Some(t.children[k]) else None)
  {
    if t.Node? && k in t.children {
      assert Lookup(t, [k]) == Lookup(t.children[k], []);
    }
  }

  /** Following two keys. */
  lemma LookupTwo<K, V>(t: Tree<K, V>, k1: K, k2: K)
    ensures Lookup(t, [k1, k2]) ==
      (if Lookup(t, [k1]).Some? then Lookup(Lookup(t, [k1]).value, [k2]) else None)
  {
    LookupAppend(t, [k1], [k2]);
    assert [k1] + [k2] == [k1, k2];
  }

  /** `t` leaves `path` alone: every step of the path meets a hash, and one
      of them lacks the next key, so merging `t` cannot replace or reach the
      value found there. */
  predicate Untouched<K, V>(t: Tree<K, V>, path: seq<K>)
  {
    |path| > 0 && t.Node? &&
    (path[0] !in t.children || Untouched(t.children[path[0]], path[1..]))
  }

  /** A later scalar or block wins at any depth: whatever the earlier
      configuration held along the path, the merge holds the later leaf. */
  lemma {:induction false} LaterLeafWins<K, V>(a: Tree<K, V>, b: Tree<K, V>, path: seq<K>, v: V)
    requires Lookup(b, path) == Some(Leaf(v))
    ensures Lookup(DeepMerge(a, b), path) == Some(Leaf(v))
  {
    if |path| == 0 {
    } else if a.Node? {
      var k := path[0];
      var m := DeepMerge(a, b);
      if k in a.children {
        LaterLeafWins(a.children[k], b.children[k], path[1..], v);
        assert m.children[k] == DeepMerge(a.children[k], b.children[k]);
      } else {
        assert m.children[k] == b.children[k];
      }
    }
  }

  /** A value only the earlier configuration holds survives the merge at
      any depth, whatever unrelated keys the later one declares. */
  lemma {:induction false} EarlierSurvives<K, V>(a: Tree<K, V>, b: Tree<K, V>, path: seq<K>, x: Tree<K, V>)
    requires Lookup(a, path) == Some(x)
    requires Untouched(b, path)
    ensures Lookup(DeepMerge(a, b), path) == Some(x)
  {
    var k := path[0];
    var m := DeepMerge(a, b);
    if k in b.children {
      EarlierSurvives(a.children[k], b.children[k], path[1..], x);
      assert m.children[k] == DeepMerge(a.children[k], b.children[k]);
    } else {
      assert m.children[k] == a.children[k];
    }
  }

  /** Where both configurations hold a hash at the same path, the merge
      holds the merge of those two hashes there: merging commutes with
      descending into nested hashes. */
  lemma {:induction false} MergeAtSharedPath<K, V>(a: Tree<K, V>, b: Tree<K, V>, path: seq<K>, x: Tree<K, V>, y: Tree<K, V>)
    requires Lookup(a, path) == Some(x) && x.Node?
    requires Lookup(b, path) == Some(y) && y.Node?
    ensures Lookup(DeepMerge(a, b), path) == Some(DeepMerge(x, y))
  {
    if |path| > 0 {
      var k := path[0];
      MergeAtSharedPath(a.children[k], b.children[k], path[1..], x, y);
      assert DeepMerge(a, b).children[k] == DeepMerge(a.children[k], b.children[k]);
    }
  }

  /** Declaring the same configuration twice changes nothing. */
  lemma {:induction false} MergeIdempotent<K, V>(a: Tree<K, V>)
    ensures DeepMerge(a, a) == a
  {
    if a.Node? {
      forall k | k in a.children
        ensures DeepMerge(a, a).children[k] == a.children[k]
      {
        MergeIdempotent(a.children[k]);
      }
      assert DeepMerge(a, a).children == a.children;
    }
  }

  /** Merging a hash into the empty hash yields that hash: the first
      declaration for a name is taken as it is. */
  lemma MergeIntoEmpty<K, V>(b: Tree<K, V>)
    requires b.Node?
    ensures DeepMerge(Empty(), b) == b
  {
    assert DeepMerge(Empty(), b).children == b.children;
  }

  /** Merging the empty hash into a hash leaves it as it was. */
  lemma MergeEmpty<K, V>(a: Tree<K, V>)
    requires a.Node?
    ensures DeepMerge(a, Empty()) == a
  {
    assert DeepMerge(a, Empty()).children == a.children;
  }
}
