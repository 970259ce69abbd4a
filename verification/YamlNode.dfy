/**
 * The YAML nodes the core rewrites in place (core/mobile/core.go): nodes on the heap whose
 * content lists other nodes. Each node keeps, as ghosts, the tree it stands for and a set of
 * nodes that holds every node it can reach.
 */
module YamlNode {
  import opened Options
  import opened YamlMerge

  class Node {
    var kind: Kind
    var tag: string
    var value: string
    var content: seq<Node>
    ghost var tree: Tree
    ghost var repr: set<Node>

    /** The node stands for its tree, and no node is reached twice: a tree, without sharing. */
    ghost predicate Valid()
      reads this, repr
      decreases repr
    {
      && this in repr
      && tree.kind == kind && tree.tag == tag && tree.value == value && |tree.kids| == |content|
      && (forall i | 0 <= i < |content| ::
            && content[i] in repr && content[i].repr < repr && this !in content[i].repr
            && content[i].Valid() && content[i].tree == tree.kids[i])
      && (forall i, j | 0 <= i < j < |content| :: content[i].repr !! content[j].repr)
    }

    /** A node without content. */
    constructor (kind: Kind, tag: string, value: string)
      ensures Valid() && tree == Tree(kind, tag, value, []) && fresh(repr)
      ensures repr == {this}
    {
      this.kind, this.tag, this.value, content := kind, tag, value, [];
      tree, repr := Tree(kind, tag, value, []), {this};
    }

    /** Where `findValue` and `setNode` find the key: the index of its key node, or -1. */
    method Locate(key: string) returns (i: int)
      requires Valid()
      ensures i == -1 <==> !HasKey(tree.kids, key)
      ensures i != -1 ==> i == Place(tree.kids, key) && i + 1 < |content|
    {
      i := 0;
      while i + 1 < |content|
        invariant 0 <= i <= |content|
        invariant HasKey(tree.kids, key) <==> HasKey(tree.kids[i..], key)
        invariant HasKey(tree.kids, key) ==> Place(tree.kids, key) == i + Place(tree.kids[i..], key)
      {
        assert tree.kids[i..][2..] == tree.kids[i + 2..];
        if content[i].value == key {
          return;
        }
        i := i + 2;
      }
      return -1;
    }

    /** `findValue`; the ghost says where in the content the value stands. */
    method FindValue(key: string) returns (found: Node?, ghost at: nat)
      requires Valid()
      ensures found == null <==> !HasKey(tree.kids, key)
      ensures found != null ==> at == Place(tree.kids, key) + 1 < |content| && found == content[at]
      ensures found != null ==> found.Valid() && Find(tree.kids, key) == Some(found.tree)
    {
      PlaceFinds(tree.kids, key);
      var i := Locate(key);
      if i == -1 {
        return null, 0;
      }
      return content[i + 1], i + 1;
    }

    /** `setNode` where the key is there. */
    method Replace(at: nat, v: Node)
      requires Valid() && at < |content| && v.Valid() && v.repr !! repr
      modifies this`content, this`tree, this`repr
      ensures Valid() && tree == old(tree).(kids := old(tree.kids)[at := v.tree])
      ensures content == old(content)[at := v] && repr == old(repr) + v.repr
    {
      content := content[at := v];
      repr := repr + v.repr;
      tree := tree.(kids := tree.kids[at := v.tree]);
      assert forall i | 0 <= i < |content| && i != at :: content[i] == old(content[i]) && content[i].Valid();
    }

    /** One more child at the end. */
    method Adopt(kid: Node)
      requires Valid() && kid.Valid() && kid.repr !! repr
      modifies this`content, this`tree, this`repr
      ensures Valid() && tree == old(tree).(kids := old(tree.kids) + [kid.tree])
      ensures repr == old(repr) + kid.repr && content == old(content) + [kid]
    {
      ghost var n := |content|;
      content := content + [kid];
      repr := repr + kid.repr;
      tree := tree.(kids := tree.kids + [kid.tree]);
      assert forall i | 0 <= i < n :: content[i] == old(content[i]) && content[i].Valid();
    }

    /** `setNode` where the key is not there. */
    method Append(key: string, v: Node)
      requires Valid() && v.Valid() && v.repr !! repr
      modifies this`content, this`tree, this`repr
      ensures Valid() && tree == old(tree).(kids := old(tree.kids) + [KeyNode(key), v.tree])
      ensures |content| == |old(content)| + 2 && content[|content| - 1] == v
      ensures old(repr) + v.repr <= repr && fresh(repr - old(repr) - v.repr)
    {
      var k := new Node(Scalar, "!!str", key);
      Adopt(k);
      Adopt(v);
      assert tree.kids == old(tree.kids) + [KeyNode(key), v.tree];
    }

    /** `setNode`; the ghost says where in the content the value stands now. */
    method SetNode(key: string, v: Node) returns (ghost at: nat)
      requires Valid() && v.Valid() && v.repr !! repr
      modifies this`content, this`tree, this`repr
      ensures Valid() && tree == old(tree).(kids := Put(old(tree.kids), key, v.tree))
      ensures old(repr) + v.repr <= repr && fresh(repr - old(repr) - v.repr)
      ensures at < |content| && content[at] == v
      ensures |old(tree.kids)| % 2 == 0 ==> at == Place(tree.kids, key) + 1
    {
      PlacePuts(tree.kids, key, v.tree);
      PlaceAfterPut(tree.kids, key, v.tree);
      var i := Locate(key);
      if i != -1 {
        Replace(i + 1, v);
        at := i + 1;
      } else {
        Append(key, v);
        at := |content| - 1;
      }
    }

    /** `cloneNode`. */
    method Clone() returns (clone: Node)
      requires Valid()
      ensures clone.Valid() && clone.tree == tree && fresh(clone.repr)
      decreases repr
    {
      clone := new Node(kind, tag, value);
      for i := 0 to |content|
        invariant fresh(clone) && clone.Valid() && fresh(clone.repr)
        invariant clone.tree == tree.(kids := tree.kids[..i])
      {
        var kid := content[i].Clone();
        clone.Adopt(kid);
      }
      assert tree.kids[..|content|] == tree.kids;
    }

    /** A child at `at` has been rewritten below: the ghosts of this node follow. */
    ghost method Refresh(at: nat)
      requires this in repr && at < |content| && this !in content[at].repr && content[at] in repr && content[at].Valid()
      requires tree.kind == kind && tree.tag == tag && tree.value == value && |tree.kids| == |content|
      requires forall i | 0 <= i < |content| && i != at ::
            && content[i] in repr && content[i].repr < repr && this !in content[i].repr
            && content[i].Valid() && content[i].tree == tree.kids[i] && content[i].repr !! content[at].repr
      requires forall i, j | 0 <= i < j < |content| && i != at && j != at :: content[i].repr !! content[j].repr
      modifies this`tree, this`repr
      ensures Valid() && tree == old(tree).(kids := old(tree.kids)[at := content[at].tree])
      ensures repr == old(repr) + content[at].repr
    {
      repr := repr + content[at].repr;
      tree := tree.(kids := tree.kids[at := content[at].tree]);
      assert forall i | 0 <= i < |content| :: content[i].Valid();
    }

    /** The merge of a mapping into the mapping that is there. */
    method MergeBelow(current: Node, ghost at: nat, v: Node)
      requires Valid() && at < |content| && current == content[at]
      requires v.Valid() && repr !! v.repr
      modifies repr
      ensures Valid()
      ensures tree == old(tree).(kids := old(tree.kids)[at :=
                old(current.tree).(kids := Merged(old(current.tree.kids), v.tree.kids))])
      ensures old(repr) <= repr && fresh(repr - old(repr))
      decreases v.repr, 1
    {
      current.MergeMapping(v);
      Refresh(at);
    }

    /** One pair of `mergeMapping`, its key not skipped. */
    method MergePair(key: string, v: Node)
      requires Valid() && v.Valid() && repr !! v.repr
      modifies repr
      ensures Valid()
      ensures tree == old(tree).(kids := Put(old(tree.kids), key, Combined(Find(old(tree.kids), key), v.tree)))
      ensures old(repr) <= repr && fresh(repr - old(repr))
      decreases v.repr, 2
    {
      PlacePuts(tree.kids, key, Combined(Find(tree.kids, key), v.tree));
      var current, at := FindValue(key);
      if current != null && current.kind.Mapping? && v.kind.Mapping? {
        MergeBelow(current, at, v);
      } else {
        var clone := v.Clone();
        var _ := SetNode(key, clone);
      }
    }

    /**
     * `mergeMapping`: this node becomes the merge of its tree with the patch's, and shares no
     * node with the patch, which stays as it is.
     */
    method MergeMapping(patch: Node)
      requires Valid() && patch.Valid() && repr !! patch.repr
      modifies repr
      ensures Valid() && tree == old(tree).(kids := Merged(old(tree.kids), patch.tree.kids))
      ensures old(repr) <= repr && fresh(repr - old(repr))
      ensures repr !! patch.repr && unchanged(patch.repr) && patch.Valid()
      decreases patch.repr, 0
    {
      var i := 0;
      while i + 1 < |patch.content|
        invariant 0 <= i <= |patch.content|
        invariant Valid() && old(repr) <= repr && fresh(repr - old(repr))
        invariant tree == old(tree).(kids := tree.kids)
        invariant Merged(tree.kids, patch.tree.kids[i..]) == Merged(old(tree.kids), patch.tree.kids)
      {
        var key, v := patch.content[i], patch.content[i + 1];
        assert patch.tree.kids[i..][2..] == patch.tree.kids[i + 2..];
        if !Skipped(key.value) {
          MergePair(key.value, v);
        }
        i := i + 2;
      }
    }
  }

  // ----- Nodes that can be reached ----------------------------------------------------------

  /** Following these positions from `from` leads to `to`. */
  ghost predicate Leads(from: Node, path: seq<nat>, to: Node)
    requires from.Valid()
    reads from, from.repr
    decreases path
  {
    if path == [] then from == to
    else path[0] < |from.content| && Leads(from.content[path[0]], path[1..], to)
  }

  lemma {:induction false} LeadsInside(from: Node, path: seq<nat>, to: Node)
    requires from.Valid() && Leads(from, path, to)
    ensures to in from.repr
    decreases path
  {
    if path == [] {
    } else {
      LeadsInside(from.content[path[0]], path[1..], to);
    }
  }

  /** A valid node is a tree: no node is reached along two paths. */
  lemma {:induction false} ReachedOnce(from: Node, p: seq<nat>, q: seq<nat>, to: Node)
    requires from.Valid() && Leads(from, p, to) && Leads(from, q, to)
    ensures p == q
    decreases p
  {
    if p == [] {
    } else {
      LeadsInside(from.content[p[0]], p[1..], to);
    }
    if q != [] {
      LeadsInside(from.content[q[0]], q[1..], to);
    }
    if p != [] && q != [] {
      ReachedOnce(from.content[p[0]], p[1..], q[1..], to);
      assert p == [p[0]] + p[1..] && q == [q[0]] + q[1..];
    }
  }

  /** What the merge promises about `repr` in terms of nodes: none is reached from both sides. */
  lemma NothingShared(a: Node, b: Node, p: seq<nat>, q: seq<nat>, to: Node)
    requires a.Valid() && b.Valid() && a.repr !! b.repr && Leads(a, p, to)
    ensures !Leads(b, q, to)
  {
    LeadsInside(a, p, to);
    if Leads(b, q, to) {
      LeadsInside(b, q, to);
    }
  }

  // ----- Where a key stands ---------------------------------------------------------------

  function Place(kids: seq<Tree>, key: string): nat {
    if |kids| < 2 then |kids| else if kids[0].value == key then 0 else 2 + Place(kids[2..], key)
  }

  lemma {:induction false} PlaceFinds(kids: seq<Tree>, key: string)
    ensures HasKey(kids, key) ==>
              var i := Place(kids, key); i + 1 < |kids| && kids[i].value == key && Find(kids, key) == Some(kids[i + 1])
  {
    if |kids| >= 2 {
      PlaceFinds(kids[2..], key);
    }
  }

  lemma {:induction false} PlacePuts(kids: seq<Tree>, key: string, v: Tree)
    ensures HasKey(kids, key) ==> Place(kids, key) + 1 < |kids| && Put(kids, key, v) == kids[Place(kids, key) + 1 := v]
    ensures !HasKey(kids, key) ==> Put(kids, key, v) == kids + [KeyNode(key), v]
  {
    if |kids| >= 2 {
      PlacePuts(kids[2..], key, v);
    }
  }

  lemma {:induction false} PlaceAfterPut(kids: seq<Tree>, key: string, v: Tree)
    ensures |kids| % 2 == 0 ==> Place(Put(kids, key, v), key) == Place(kids, key)
    ensures |kids| % 2 == 0 && !HasKey(kids, key) ==> Place(kids, key) == |kids|
  {
    if |kids| >= 2 {
      PlaceAfterPut(kids[2..], key, v);
      if kids[0].value != key {
        assert Put(kids, key, v)[2..] == Put(kids[2..], key, v);
      }
    } else if kids == [] {
      assert Put(kids, key, v) == [KeyNode(key), v];
    }
  }
}
