/**
 * What a merge does to the values of a config, key by key and path by path, in terms of the two
 * configs alone (core/mobile/core.go).
 */
module YamlPaths {
  import opened Options
  import opened YamlMerge

  // ----- One key --------------------------------------------------------------------------

  /** Two mappings under one key are merged; any other value of the patch takes the place of what was there. */
  lemma MergedValue(kids: seq<Tree>, patch: seq<Tree>, key: string, current: Tree, p: Tree)
    requires UniqueKeys(kids) && UniqueKeys(patch) && !Skipped(key)
    requires Find(kids, key) == Some(current) && Find(patch, key) == Some(p)
    ensures Find(Merged(kids, patch), key)
         == Some(if current.kind.Mapping? && p.kind.Mapping? then current.(kids := Merged(current.kids, p.kids)) else p)
  {
    FindInMerged(kids, patch, key);
  }

  /** A key on one side only keeps its value, unless it is one that patches are not to bring. */
  lemma UnsharedValue(kids: seq<Tree>, patch: seq<Tree>, key: string)
    requires UniqueKeys(kids) && UniqueKeys(patch)
    ensures Find(patch, key).None? ==> Find(Merged(kids, patch), key) == Find(kids, key)
    ensures Find(kids, key).None? && !Skipped(key) ==> Find(Merged(kids, patch), key) == Find(patch, key)
  {
    FindInMerged(kids, patch, key);
  }

  const STEERING := {"overwrite-rule-providers", "overwrite-rules", "overwrite-sub-rules", "overwrite-proxy-groups",
    "overwrite-hosts", "extension"}

  /** The six keys that only steer the merging elsewhere are never taken from a patch; all others are. */
  lemma SteeringKeysStay(kids: seq<Tree>, patch: seq<Tree>, key: string)
    requires UniqueKeys(kids) && UniqueKeys(patch)
    ensures key in STEERING ==> Find(Merged(kids, patch), key) == Find(kids, key)
    ensures key !in STEERING && HasKey(patch, key) ==> HasKey(Merged(kids, patch), key)
  {
    FindInMerged(kids, patch, key);
  }

  // ----- Paths ----------------------------------------------------------------------------

  /** The value at a path of keys, through mappings. */
  function At(kids: seq<Tree>, path: seq<string>): Option<Tree>
    decreases |path|
  {
    if path == [] then None
    else match Find(kids, path[0])
      case None => None
      case Some(v) => if |path| == 1 then Some(v) else if v.kind.Mapping? then At(v.kids, path[1..]) else None
  }

  /** Along the path, the patch has mappings up to a key that it lacks or may not bring. */
  predicate Lacks(patch: seq<Tree>, path: seq<string>)
    decreases |path|
  {
    path != []
    && (Skipped(path[0])
        || match Find(patch, path[0])
           case None => true
           case Some(p) => |path| > 1 && p.kind.Mapping? && Lacks(p.kids, path[1..]))
  }

  lemma FoundIsWellFormed(kids: seq<Tree>, key: string)
    requires AllWellFormed(kids) && Find(kids, key).Some?
    ensures WellFormed(Find(kids, key).value) && AllWellFormed(Find(kids, key).value.kids)
    ensures Find(kids, key).value.kind.Mapping? ==> UniqueKeys(Find(kids, key).value.kids)
  {
    FoundWellFormed(kids, key);
  }

  /** A path that the patch lacks keeps its value, however deep. */
  lemma {:induction false} LackedPathsKeepTheirValue(kids: seq<Tree>, patch: seq<Tree>, path: seq<string>)
    requires UniqueKeys(kids) && AllWellFormed(kids) && UniqueKeys(patch) && AllWellFormed(patch)
    requires At(kids, path).Some? && Lacks(patch, path)
    ensures At(Merged(kids, patch), path) == At(kids, path)
    decreases |path|
  {
    var key, current := path[0], Find(kids, path[0]).value;
    if Skipped(key) || Find(patch, key).None? {
      FindInMerged(kids, patch, key);
    } else {
      var p := Find(patch, key).value;
      FoundIsWellFormed(kids, key);
      FoundIsWellFormed(patch, key);
      MergedValue(kids, patch, key, current, p);
      LackedPathsKeepTheirValue(current.kids, p.kids, path[1..]);
    }
  }

  /** No key of the path is one that patches are not to bring. */
  predicate Brought(path: seq<string>) {
    forall i | 0 <= i < |path| :: !Skipped(path[i])
  }

  /** A value of the patch that is no mapping is found at its path, whatever was there before. */
  lemma {:induction false} LeavesOfThePatchAreFound(kids: seq<Tree>, patch: seq<Tree>, path: seq<string>)
    requires UniqueKeys(kids) && AllWellFormed(kids) && UniqueKeys(patch) && AllWellFormed(patch)
    requires Brought(path) && At(patch, path).Some? && !At(patch, path).value.kind.Mapping?
    ensures At(Merged(kids, patch), path) == At(patch, path)
    decreases |path|
  {
    var key, p := path[0], Find(patch, path[0]).value;
    FoundIsWellFormed(patch, key);
    if Find(kids, key).None? {
      UnsharedValue(kids, patch, key);
    } else {
      var current := Find(kids, key).value;
      MergedValue(kids, patch, key, current, p);
      if |path| > 1 && current.kind.Mapping? {
        FoundIsWellFormed(kids, key);
        assert forall i | 0 <= i < |path[1..]| :: path[1..][i] == path[i + 1];
        LeavesOfThePatchAreFound(current.kids, p.kids, path[1..]);
      }
    }
  }

  /** Nothing else appears: what a path holds after the merge comes from one side or is itself a merge. */
  lemma {:induction false} NothingElseAppears(kids: seq<Tree>, patch: seq<Tree>, path: seq<string>)
    requires UniqueKeys(kids) && AllWellFormed(kids) && UniqueKeys(patch) && AllWellFormed(patch)
    requires At(Merged(kids, patch), path).Some?
    ensures var (v, was, p) := (At(Merged(kids, patch), path), At(kids, path), At(patch, path));
            || v == was || v == p
            || (was.Some? && p.Some? && was.value.kind.Mapping? && p.value.kind.Mapping?
                && v == Some(was.value.(kids := Merged(was.value.kids, p.value.kids))))
    decreases |path|
  {
    var key := path[0];
    if Find(patch, key).None? || Skipped(key) || Find(kids, key).None? {
      FindInMerged(kids, patch, key);
    } else {
      var current, p := Find(kids, key).value, Find(patch, key).value;
      MergedValue(kids, patch, key, current, p);
      if |path| > 1 && current.kind.Mapping? && p.kind.Mapping? {
        FoundIsWellFormed(kids, key);
        FoundIsWellFormed(patch, key);
        NothingElseAppears(current.kids, p.kids, path[1..]);
      }
    }
  }
}
