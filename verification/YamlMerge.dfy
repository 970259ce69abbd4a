/**
 * YAML trees as the core sees them, and the merge of a patch into a config, on values
 * (core/mobile/core.go). A mapping's children alternate between keys and values.
 */
module YamlMerge {
  import opened Options

  datatype Kind = Mapping | Sequence | Scalar | Other

  datatype Tree = Tree(kind: Kind, tag: string, value: string, kids: seq<Tree>)

  function KeyNode(key: string): Tree {
    Tree(Scalar, "!!str", key, [])
  }

  // ----- Looking up and setting a key -----------------------------------------------------

  /** `findValue`: the value of the first pair whose key has this text. */
  function Find(kids: seq<Tree>, key: string): Option<Tree> {
    if |kids| < 2 then None
    else if kids[0].value == key then Some(kids[1])
    else Find(kids[2..], key)
  }

  /** `setNode`: replaces the value of the first such pair, or appends a pair. */
  function Put(kids: seq<Tree>, key: string, v: Tree): seq<Tree> {
    if |kids| < 2 then kids + [KeyNode(key), v]
    else if kids[0].value == key then [kids[0], v] + kids[2..]
    else kids[..2] + Put(kids[2..], key, v)
  }

  predicate Skipped(key: string) {
    key in {"overwrite-rule-providers", "overwrite-rules", "overwrite-sub-rules", "overwrite-proxy-groups",
            "overwrite-hosts", "extension"}
  }

  /** What a patch value does to the value that is there. */
  function Combined(current: Option<Tree>, v: Tree): Tree
    decreases v, 1
  {
    if current.Some? && current.value.kind.Mapping? && v.kind.Mapping?
    then current.value.(kids := Merged(current.value.kids, v.kids))
    else v
  }

  /** `mergeMapping`: the pairs of the patch are taken one after the other. */
  function Merged(kids: seq<Tree>, patch: seq<Tree>): seq<Tree>
    decreases patch, 0
  {
    if |patch| < 2 then kids
    else
      var key, v := patch[0].value, patch[1];
      var next := if Skipped(key) then kids else Put(kids, key, Combined(Find(kids, key), v));
      Merged(next, patch[2..])
  }

  // ----- Unique keys ----------------------------------------------------------------------

  predicate HasKey(kids: seq<Tree>, key: string) {
    Find(kids, key).Some?
  }

  predicate UniqueKeys(kids: seq<Tree>) {
    if |kids| < 2 then kids == []
    else !HasKey(kids[2..], kids[0].value) && UniqueKeys(kids[2..])
  }

  /** Every mapping below has whole pairs and no key twice. */
  ghost predicate WellFormed(t: Tree) {
    (t.kind.Mapping? ==> UniqueKeys(t.kids)) && forall i | 0 <= i < |t.kids| :: WellFormed(t.kids[i])
  }

  ghost predicate AllWellFormed(kids: seq<Tree>) {
    forall i | 0 <= i < |kids| :: WellFormed(kids[i])
  }

  // ----- An independent description of the merge --------------------------------------------

  /** The value a key that is there ends up with. */
  function Final(key: string, v: Tree, patch: seq<Tree>): Tree {
    if Skipped(key) then v
    else match Find(patch, key)
      case None => v
      case Some(p) => Combined(Some(v), p)
  }

  /** Every pair that is there, in its place, with its key node and its final value. */
  function Revised(kids: seq<Tree>, patch: seq<Tree>): seq<Tree> {
    if |kids| < 2 then kids
    else [kids[0], Final(kids[0].value, kids[1], patch)] + Revised(kids[2..], patch)
  }

  /** The pairs of the patch that are new, in the patch's order. */
  function News(kids: seq<Tree>, patch: seq<Tree>): seq<Tree> {
    if |patch| < 2 then []
    else
      (if Skipped(patch[0].value) || HasKey(kids, patch[0].value) then [] else [KeyNode(patch[0].value), patch[1]])
      + News(kids, patch[2..])
  }

  // ----- Facts about Find and Put -----------------------------------------------------------

  lemma {:induction false} FindAfterPut(kids: seq<Tree>, key: string, v: Tree, other: string)
    requires UniqueKeys(kids)
    ensures Find(Put(kids, key, v), other) == if other == key then Some(v) else Find(kids, other)
    ensures UniqueKeys(Put(kids, key, v))
  {
    if |kids| >= 2 {
      FindAfterPut(kids[2..], key, v, other);
      if kids[0].value == key {
        assert Put(kids, key, v)[2..] == kids[2..];
      } else {
        var r := Put(kids[2..], key, v);
        assert Put(kids, key, v)[2..] == r && Put(kids, key, v)[0] == kids[0] && Put(kids, key, v)[1] == kids[1];
        FindAfterPut(kids[2..], key, v, kids[0].value);
      }
    } else {
      assert Put(kids, key, v) == [KeyNode(key), v];
      assert Put(kids, key, v)[2..] == [];
    }
  }

  /** Putting what is there already changes nothing. */
  lemma {:induction false} PutSame(kids: seq<Tree>, key: string, v: Tree)
    requires Find(kids, key) == Some(v)
    ensures Put(kids, key, v) == kids
  {
    if kids[0].value == key {
      assert [kids[0], v] + kids[2..] == kids;
    } else {
      PutSame(kids[2..], key, v);
      assert kids[..2] + kids[2..] == kids;
    }
  }

  lemma {:induction false} PutWellFormed(kids: seq<Tree>, key: string, v: Tree)
    requires AllWellFormed(kids) && WellFormed(v)
    ensures AllWellFormed(Put(kids, key, v))
  {
    if |kids| < 2 {
      assert WellFormed(KeyNode(key));
    } else if kids[0].value != key {
      PutWellFormed(kids[2..], key, v);
    }
  }

  lemma {:induction false} FoundWellFormed(kids: seq<Tree>, key: string)
    requires AllWellFormed(kids)
    ensures Find(kids, key).Some? ==> WellFormed(Find(kids, key).value)
  {
    if |kids| >= 2 && kids[0].value != key {
      FoundWellFormed(kids[2..], key);
    }
  }

  // ----- The merge is what it is described to be --------------------------------------------

  lemma {:induction false} RevisedAgrees(kids: seq<Tree>, p: seq<Tree>, q: seq<Tree>)
    requires forall key | HasKey(kids, key) && !Skipped(key) :: Find(p, key) == Find(q, key)
    requires UniqueKeys(kids)
    ensures Revised(kids, p) == Revised(kids, q)
  {
    if |kids| >= 2 {
      assert HasKey(kids, kids[0].value);
      forall key | HasKey(kids[2..], key) && !Skipped(key) ensures Find(p, key) == Find(q, key) {
        assert key != kids[0].value ==> HasKey(kids, key);
      }
      RevisedAgrees(kids[2..], p, q);
    }
  }

  lemma {:induction false} NewsAgree(a: seq<Tree>, b: seq<Tree>, patch: seq<Tree>)
    requires forall key | HasKey(patch, key) :: HasKey(a, key) <==> HasKey(b, key)
    requires UniqueKeys(patch)
    ensures News(a, patch) == News(b, patch)
  {
    if |patch| >= 2 {
      assert HasKey(patch, patch[0].value);
      forall key | HasKey(patch[2..], key) ensures HasKey(a, key) <==> HasKey(b, key) {
        assert key != patch[0].value ==> HasKey(patch, key);
      }
      NewsAgree(a, b, patch[2..]);
    }
  }

  /** One pair of the patch on a key that is there. */
  lemma {:induction false} RevisedAfterPut(kids: seq<Tree>, key: string, p: Tree, rest: seq<Tree>, patch: seq<Tree>)
    requires UniqueKeys(kids) && HasKey(kids, key) && !Skipped(key) && !HasKey(rest, key)
    requires |patch| >= 2 && patch[0].value == key && patch[1] == p && patch[2..] == rest
    ensures Revised(Put(kids, key, Combined(Find(kids, key), p)), rest) == Revised(kids, patch)
  {
    if kids[0].value == key {
      var v := Combined(Some(kids[1]), p);
      var next := [kids[0], v] + kids[2..];
      assert next[2..] == kids[2..];
      assert Final(key, kids[1], patch) == v && Final(key, v, rest) == v;
      forall k | HasKey(kids[2..], k) && !Skipped(k) ensures Find(patch, k) == Find(rest, k) {}
      RevisedAgrees(kids[2..], patch, rest);
    } else {
      var tail := Put(kids[2..], key, Combined(Find(kids, key), p));
      var next := kids[..2] + tail;
      assert next[2..] == tail && next[0] == kids[0] && next[1] == kids[1];
      RevisedAfterPut(kids[2..], key, p, rest, patch);
    }
  }

  lemma {:induction false} RevisedAppend(kids: seq<Tree>, key: string, v: Tree, patch: seq<Tree>)
    requires UniqueKeys(kids) && !HasKey(kids, key) && !HasKey(patch, key)
    ensures Revised(Put(kids, key, v), patch) == Revised(kids, patch) + [KeyNode(key), v]
  {
    if |kids| >= 2 {
      var tail := Put(kids[2..], key, v);
      var next := kids[..2] + tail;
      assert next[2..] == tail && next[0] == kids[0] && next[1] == kids[1];
      RevisedAppend(kids[2..], key, v, patch);
    } else {
      var next := [KeyNode(key), v];
      assert Put(kids, key, v) == next && next[2..] == [];
      assert Revised(next, patch) == [KeyNode(key), v];
    }
  }

  /** The pair of the patch replaces or merges a value that is there. */
  lemma RevisionAbsorbs(kids: seq<Tree>, key: string, p: Tree, patch: seq<Tree>)
    requires UniqueKeys(kids) && UniqueKeys(patch) && HasKey(kids, key) && !Skipped(key)
    requires |patch| >= 2 && patch[0].value == key && patch[1] == p
    ensures var next := Put(kids, key, Combined(Find(kids, key), p));
            Revised(next, patch[2..]) + News(kids, patch[2..]) == Revised(kids, patch) + News(kids, patch)
  {
    RevisedAfterPut(kids, key, p, patch[2..], patch);
    assert News(kids, patch) == News(kids, patch[2..]);
  }

  /** The pair of the patch is appended. */
  lemma NewsAbsorb(kids: seq<Tree>, key: string, p: Tree, patch: seq<Tree>)
    requires UniqueKeys(kids) && UniqueKeys(patch) && !HasKey(kids, key) && !Skipped(key)
    requires |patch| >= 2 && patch[0].value == key && patch[1] == p
    ensures var next := Put(kids, key, Combined(Find(kids, key), p));
            Revised(next, patch[2..]) + News(kids, patch[2..]) == Revised(kids, patch) + News(kids, patch)
  {
    var rest := patch[2..];
    RevisedAppend(kids, key, p, rest);
    forall k | HasKey(kids, k) && !Skipped(k) ensures Find(patch, k) == Find(rest, k) {}
    RevisedAgrees(kids, patch, rest);
    Associate(Revised(kids, rest), [KeyNode(key), p], News(kids, rest));
  }

  /** One pair of the patch, not skipped: the description of what follows absorbs it. */
  lemma DescriptionAbsorbs(kids: seq<Tree>, patch: seq<Tree>)
    requires UniqueKeys(kids) && UniqueKeys(patch) && |patch| >= 2 && !Skipped(patch[0].value)
    ensures var next := Put(kids, patch[0].value, Combined(Find(kids, patch[0].value), patch[1]));
            UniqueKeys(next)
            && Revised(next, patch[2..]) + News(next, patch[2..]) == Revised(kids, patch) + News(kids, patch)
  {
    var key, p, rest := patch[0].value, patch[1], patch[2..];
    var next := Put(kids, key, Combined(Find(kids, key), p));
    FindAfterPut(kids, key, Combined(Find(kids, key), p), key);
    forall k | HasKey(rest, k) ensures HasKey(next, k) <==> HasKey(kids, k) {
      FindAfterPut(kids, key, Combined(Find(kids, key), p), k);
    }
    NewsAgree(next, kids, rest);
    if HasKey(kids, key) {
      RevisionAbsorbs(kids, key, p, patch);
    } else {
      NewsAbsorb(kids, key, p, patch);
    }
  }

  /**
   * The merge, key by key: every pair that is there keeps its place and its key, with its final
   * value; the new pairs of the patch follow in the patch's order.
   */
  lemma {:induction false} MergeIsRevisionAndNews(kids: seq<Tree>, patch: seq<Tree>)
    requires UniqueKeys(kids) && UniqueKeys(patch)
    ensures Merged(kids, patch) == Revised(kids, patch) + News(kids, patch)
    decreases |patch|
  {
    if |patch| < 2 {
      RevisedByNothing(kids, patch);
    } else if Skipped(patch[0].value) {
      MergeIsRevisionAndNews(kids, patch[2..]);
      forall k | HasKey(kids, k) && !Skipped(k) ensures Find(patch, k) == Find(patch[2..], k) {}
      RevisedAgrees(kids, patch, patch[2..]);
    } else {
      DescriptionAbsorbs(kids, patch);
      MergeIsRevisionAndNews(Put(kids, patch[0].value, Combined(Find(kids, patch[0].value), patch[1])), patch[2..]);
    }
  }

  lemma Associate(a: seq<Tree>, b: seq<Tree>, c: seq<Tree>)
    ensures (a + b) + c == a + (b + c)
  {
  }

  lemma {:induction false} RevisedByNothing(kids: seq<Tree>, patch: seq<Tree>)
    requires |patch| < 2
    ensures Revised(kids, patch) == kids
  {
    if |kids| >= 2 {
      RevisedByNothing(kids[2..], patch);
      assert kids == [kids[0], kids[1]] + kids[2..];
    }
  }

  // ----- Looking up keys after a merge ------------------------------------------------------

  lemma {:induction false} FindInRevised(kids: seq<Tree>, patch: seq<Tree>, key: string)
    ensures Find(Revised(kids, patch), key)
         == if HasKey(kids, key) then Some(Final(key, Find(kids, key).value, patch)) else None
  {
    if |kids| >= 2 {
      FindInRevised(kids[2..], patch, key);
      assert Revised(kids, patch)[2..] == Revised(kids[2..], patch);
    }
  }

  lemma {:induction false} FindInNews(kids: seq<Tree>, patch: seq<Tree>, key: string)
    ensures Find(News(kids, patch), key) == if Skipped(key) || HasKey(kids, key) then None else Find(patch, key)
  {
    if |patch| >= 2 {
      FindInNews(kids, patch[2..], key);
      var rest := News(kids, patch[2..]);
      if Skipped(patch[0].value) || HasKey(kids, patch[0].value) {
        assert News(kids, patch) == rest;
      } else {
        assert News(kids, patch)[2..] == rest;
      }
    }
  }

  lemma {:induction false} FindInConcat(a: seq<Tree>, b: seq<Tree>, key: string)
    requires |a| % 2 == 0
    ensures Find(a + b, key) == if HasKey(a, key) then Find(a, key) else Find(b, key)
  {
    if a == [] {
      assert a + b == b;
    } else {
      FindInConcat(a[2..], b, key);
      assert (a + b)[2..] == a[2..] + b;
    }
  }

  lemma {:induction false} RevisedLength(kids: seq<Tree>, patch: seq<Tree>)
    requires UniqueKeys(kids)
    ensures |Revised(kids, patch)| == |kids| && |kids| % 2 == 0
  {
    if |kids| >= 2 {
      RevisedLength(kids[2..], patch);
    }
  }

  /** The value of any key after the merge. */
  lemma FindInMerged(kids: seq<Tree>, patch: seq<Tree>, key: string)
    requires UniqueKeys(kids) && UniqueKeys(patch)
    ensures Find(Merged(kids, patch), key) ==
              if HasKey(kids, key) then Some(Final(key, Find(kids, key).value, patch))
              else if Skipped(key) then None
              else Find(patch, key)
  {
    MergeIsRevisionAndNews(kids, patch);
    FindInRevised(kids, patch, key);
    FindInNews(kids, patch, key);
    RevisedLength(kids, patch);
    FindInConcat(Revised(kids, patch), News(kids, patch), key);
  }

  // ----- Merging keeps trees well formed ----------------------------------------------------

  lemma {:induction false} MergeKeepsWellFormed(kids: seq<Tree>, patch: seq<Tree>)
    requires UniqueKeys(kids) && AllWellFormed(kids) && UniqueKeys(patch) && AllWellFormed(patch)
    ensures UniqueKeys(Merged(kids, patch)) && AllWellFormed(Merged(kids, patch))
    decreases patch
  {
    if |patch| >= 2 {
      var key, p := patch[0].value, patch[1];
      var current := Find(kids, key);
      if Skipped(key) {
        MergeKeepsWellFormed(kids, patch[2..]);
      } else {
        FoundWellFormed(kids, key);
        if current.Some? && current.value.kind.Mapping? && p.kind.Mapping? {
          MergeKeepsWellFormed(current.value.kids, p.kids);
        }
        assert WellFormed(Combined(current, p));
        PutWellFormed(kids, key, Combined(current, p));
        FindAfterPut(kids, key, Combined(current, p), key);
        MergeKeepsWellFormed(Put(kids, key, Combined(current, p)), patch[2..]);
      }
    }
  }

  // ----- Merging again changes nothing ------------------------------------------------------

  lemma {:induction false} RevisedIsSame(kids: seq<Tree>, patch: seq<Tree>)
    requires UniqueKeys(kids)
    requires forall key | HasKey(kids, key) :: Final(key, Find(kids, key).value, patch) == Find(kids, key).value
    ensures Revised(kids, patch) == kids
  {
    if |kids| >= 2 {
      assert HasKey(kids, kids[0].value);
      forall key | HasKey(kids[2..], key) ensures Final(key, Find(kids[2..], key).value, patch)
              == Find(kids[2..], key).value {
        assert key != kids[0].value;
        assert HasKey(kids, key);
      }
      RevisedIsSame(kids[2..], patch);
      assert kids == [kids[0], kids[1]] + kids[2..];
    }
  }

  lemma {:induction false} NoNews(kids: seq<Tree>, patch: seq<Tree>)
    requires UniqueKeys(patch)
    requires forall key | HasKey(patch, key) && !Skipped(key) :: HasKey(kids, key)
    ensures News(kids, patch) == []
  {
    if |patch| >= 2 {
      assert HasKey(patch, patch[0].value);
      forall key | HasKey(patch[2..], key) && !Skipped(key) ensures HasKey(kids, key) {
        assert key != patch[0].value ==> HasKey(patch, key);
      }
      NoNews(kids, patch[2..]);
    }
  }

  lemma {:induction false} FoundIsKid(kids: seq<Tree>, key: string)
    ensures HasKey(kids, key) ==> exists i | 0 <= i < |kids| :: kids[i] == Find(kids, key).value
  {
    if |kids| >= 2 {
      if kids[0].value == key {
        assert kids[1] == Find(kids, key).value;
      } else {
        FoundIsKid(kids[2..], key);
        if HasKey(kids, key) {
          var i :| 0 <= i < |kids[2..]| && kids[2..][i] == Find(kids, key).value;
          assert kids[i + 2] == Find(kids, key).value;
        }
      }
    }
  }

  /** A tree merged into itself stays as it is. */
  lemma {:induction false} SelfMerge(kids: seq<Tree>)
    requires UniqueKeys(kids) && AllWellFormed(kids)
    ensures Merged(kids, kids) == kids
    decreases kids
  {
    MergeIsRevisionAndNews(kids, kids);
    NoNews(kids, kids);
    forall key | HasKey(kids, key) ensures Final(key, Find(kids, key).value, kids) == Find(kids, key).value {
      var v := Find(kids, key).value;
      FoundWellFormed(kids, key);
      FoundIsKid(kids, key);
      var i :| 0 <= i < |kids| && kids[i] == v;
      if v.kind.Mapping? {
        SelfMerge(v.kids);
      }
    }
    RevisedIsSame(kids, kids);
  }

  /** The merge is idempotent: applying the patch again changes nothing. */
  lemma {:induction false} MergeIsIdempotent(kids: seq<Tree>, patch: seq<Tree>)
    requires UniqueKeys(kids) && AllWellFormed(kids) && UniqueKeys(patch) && AllWellFormed(patch)
    ensures Merged(Merged(kids, patch), patch) == Merged(kids, patch)
    decreases patch
  {
    var m := Merged(kids, patch);
    MergeKeepsWellFormed(kids, patch);
    MergeIsRevisionAndNews(m, patch);
    forall key | HasKey(patch, key) && !Skipped(key) ensures HasKey(m, key) {
      FindInMerged(kids, patch, key);
    }
    NoNews(m, patch);
    forall key | HasKey(m, key) ensures Final(key, Find(m, key).value, patch) == Find(m, key).value {
      FindInMerged(kids, patch, key);
      if HasKey(patch, key) && !Skipped(key) {
        FoundIsKid(patch, key);
        var i :| 0 <= i < |patch| && patch[i] == Find(patch, key).value;
        FoundWellFormed(kids, key);
        CombinedTwice(Find(kids, key), patch[i]);
      }
    }
    RevisedIsSame(m, patch);
  }

  lemma {:induction false} CombinedTwice(current: Option<Tree>, p: Tree)
    requires current.Some? ==> WellFormed(current.value)
    requires WellFormed(p)
    ensures Combined(Some(Combined(current, p)), p) == Combined(current, p)
    decreases p
  {
    if p.kind.Mapping? {
      if current.Some? && current.value.kind.Mapping? {
        MergeIsIdempotent(current.value.kids, p.kids);
      } else {
        SelfMerge(p.kids);
      }
    }
  }
}
