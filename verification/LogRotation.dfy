/**
 * The rotating log (RotatingLogWriter.kt): one active file and numbered backups, `.1` being
 * newer than `.2`. The directory is proved to hold a list of generations, and the list to be
 * what is left of everything appended.
 */
module LogRotation {
  import opened Options

  newtype Byte = b: int | 0 <= b < 256
  type Entry = seq<Byte>
  type Generation = seq<Entry>

  const MAX_FILE_BYTES := 100 * 1024 * 1024
  const MAX_FILE_COUNT := 3

  // ----- Generations, newest first ---------------------------------------------------------

  /** The bytes of a file that was written entry by entry. */
  function Bytes(g: Generation): Entry {
    if g == [] then [] else Bytes(g[..|g| - 1]) + g[|g| - 1]
  }

  lemma BytesAppend(g: Generation, e: Entry)
    ensures Bytes(g + [e]) == Bytes(g) + e
  {
    assert (g + [e])[..|g|] == g;
  }

  lemma BytesOfOne(e: Entry)
    ensures Bytes([e]) == e
  {
    BytesAppend([], e);
    assert [] + [e] == [e];
  }

  function Min(a: int, b: int): int {
    if a < b then a else b
  }

  predicate Accepted(e: Entry, maxFileBytes: int, maxFileCount: int) {
    maxFileBytes > 0 && maxFileCount > 0 && |e| <= maxFileBytes
  }

  predicate MustRotate(gs: seq<Generation>, e: Entry, maxFileBytes: int) {
    gs != [] && |Bytes(gs[0])| > 0 && |Bytes(gs[0])| + |e| > maxFileBytes
  }

  function Appended(gs: seq<Generation>, e: Entry, maxFileBytes: int, maxFileCount: int): seq<Generation>
    requires Accepted(e, maxFileBytes, maxFileCount)
  {
    if gs == [] then [[e]]
    else if MustRotate(gs, e, maxFileBytes) then [[e]] + gs[..Min(maxFileCount - 1, |gs|)]
    else [gs[0] + [e]] + gs[1..]
  }

  // ----- The directory ---------------------------------------------------------------------

  datatype Outcome = Refused | Written(rotated: bool)

  /** A file beside the active one: `<name>.<i>` in plain decimal, or any other suffix. */
  datatype Name = Backup(index: nat) | Other(suffix: string)

  /** The backups hold these generations, the newest as `.1`. */
  ghost predicate Hold(backups: map<nat, Entry>, older: seq<Generation>) {
    && (forall i: nat :: i in backups <==> 1 <= i <= |older|)
    && (forall i | 1 <= i <= |older| :: backups[i] == Bytes(older[i - 1]))
  }

  /**
   * The rename loop is about to fill `<name>.<index>`: above it, n generations' worth of names
   * already hold the next newer generation; below it, each still holds its own.
   */
  ghost predicate Moving(backups: map<nat, Entry>, gs: seq<Generation>, index: int, n: nat, maxFileCount: int) {
    && 0 <= index < maxFileCount && 1 <= n <= |gs| && n <= maxFileCount
    && (forall i: nat :: i in backups <==> Occupied(i, index, n, maxFileCount))
    && (forall i: nat | i in backups :: backups[i] == Bytes(gs[if i <= index then i else i - 1]))
  }

  predicate Occupied(i: nat, index: int, n: nat, maxFileCount: int) {
    if i > index then i < maxFileCount && i <= n
    else 1 <= i < n && (i < index || index == maxFileCount - 1)
  }

  lemma MovedActive(backups: map<nat, Entry>, gs: seq<Generation>, n: nat, maxFileCount: int)
    requires Moving(backups, gs, 1, n, maxFileCount)
    ensures Moving(backups[1 := Bytes(gs[0])], gs, 0, n, maxFileCount)
  {
    var next := backups[1 := Bytes(gs[0])];
    forall i: nat ensures i in next <==> Occupied(i, 0, n, maxFileCount) {
      assert i in backups <==> Occupied(i, 1, n, maxFileCount);
    }
  }

  lemma MovedBackup(backups: map<nat, Entry>, gs: seq<Generation>, index: int, n: nat, maxFileCount: int)
    requires index > 1 && Moving(backups, gs, index, n, maxFileCount) && index - 1 in backups
    ensures Moving(backups[index := backups[index - 1]] - {index - 1}, gs, index - 1, n, maxFileCount)
  {
    var next := backups[index := backups[index - 1]] - {index - 1};
    assert Occupied(index - 1, index, n, maxFileCount);
    forall i: nat ensures i in next <==> Occupied(i, index - 1, n, maxFileCount) {
      assert i in backups <==> Occupied(i, index, n, maxFileCount);
    }
  }

  lemma MovedNothing(backups: map<nat, Entry>, gs: seq<Generation>, index: int, n: nat, maxFileCount: int)
    requires index > 1 && Moving(backups, gs, index, n, maxFileCount) && index - 1 !in backups
    ensures Moving(backups, gs, index - 1, n, maxFileCount)
  {
    assert !Occupied(index - 1, index, n, maxFileCount);
    forall i: nat ensures i in backups <==> Occupied(i, index - 1, n, maxFileCount) {
      assert i in backups <==> Occupied(i, index, n, maxFileCount);
    }
  }

  lemma FreshHolds(backups: map<nat, Entry>, e: Entry, older: seq<Generation>)
    requires Hold(backups, older)
    ensures Hold(backups, ([[e]] + older)[1..])
  {
    assert ([[e]] + older)[1..] == older;
  }

  class LogDirectory {
    var active: Option<Entry>
    var backups: map<nat, Entry>
    var strays: set<string>            // suffixes of the other files
    const number: string -> Option<int> // what such a suffix reads as, if it reads as a number
    ghost var generations: seq<Generation>

    ghost predicate Valid()
      reads this
    {
      if generations == [] then active.None? && Hold(backups, [])
      else active == Some(Bytes(generations[0])) && Hold(backups, generations[1..])
    }

    constructor (number: string -> Option<int>, strays: set<string>)
      ensures Valid() && generations == [] && this.strays == strays && this.number == number
    {
      active, backups, generations := None, map[], [];
      this.number, this.strays := number, strays;
    }

    predicate Expired(suffix: string, maxFileCount: int) {
      number(suffix).Some? && number(suffix).value >= maxFileCount
    }

    /** Files whose number no longer fits, whatever order the directory lists them in. */
    method RemoveExpiredBackups(maxFileCount: int)
      modifies this`backups, this`strays
      ensures forall i: nat :: i in backups <==> i in old(backups) && i < maxFileCount
      ensures forall i: nat | i in backups :: backups[i] == old(backups)[i]
      ensures forall x :: x in strays <==>
                x in old(strays) && (number(x).Some? ==> number(x).value < maxFileCount)
    {
      var listing := Listing();
      ghost var rest := strays;
      while listing != {}
        invariant forall i: nat :: i in backups <==> i in old(backups) && (i < maxFileCount || Backup(i) in listing)
        invariant forall i: nat | i in backups :: backups[i] == old(backups)[i]
        invariant forall x :: x in strays <==> x in old(strays) && (!Expired(x, maxFileCount) || Other(x) in listing)
        decreases listing
      {
        var name :| name in listing;
        listing := listing - {name};
        match name
        case Backup(index) =>
          if index >= maxFileCount {
            backups := backups - {index};
          }
        case Other(suffix) =>
          if Expired(suffix, maxFileCount) {
            strays := strays - {suffix};
          }
      }
    }

    function Listing(): (listing: set<Name>)
      reads this
      ensures forall i: nat :: i in backups ==> Backup(i) in listing
      ensures forall x :: x in strays ==> Other(x) in listing
    {
      (set i | i in backups :: Backup(i)) + (set x | x in strays :: Other(x))
    }

    /** One turn of the rename loop. */
    method MoveUp(index: int, ghost n: nat, maxFileCount: int)
      requires index >= 1 && Moving(backups, generations, index, n, maxFileCount)
      requires active == Some(Bytes(generations[0]))
      modifies this`active, this`backups
      ensures Moving(backups, generations, index - 1, n, maxFileCount)
      ensures active == if index == 1 then None else old(active)
    {
      if index == 1 {
        MovedActive(backups, generations, n, maxFileCount);
        if active.Some? {
          backups := backups[1 := active.value];
          active := None;
        }
      } else if index - 1 in backups {
        MovedBackup(backups, generations, index, n, maxFileCount);
        backups := backups[index := backups[index - 1]] - {index - 1};
      } else {
        MovedNothing(backups, generations, index, n, maxFileCount);
      }
    }

    /** Every retained generation moves up by one, the oldest first. */
    method Rotate(maxFileCount: int)
      requires Valid() && generations != [] && maxFileCount > 0
      modifies this`active, this`backups, this`strays
      ensures active.None? && Hold(backups, generations[..Min(maxFileCount - 1, |generations|)])
      ensures forall x :: x in strays <==>
                x in old(strays) && (number(x).Some? ==> number(x).value < maxFileCount)
    {
      RemoveExpiredBackups(maxFileCount);
      if maxFileCount == 1 {
        active := None;
        return;
      }
      ghost var n := Min(|generations|, maxFileCount);
      var index := maxFileCount - 1;
      while index >= 1
        invariant Moving(backups, generations, index, n, maxFileCount)
        invariant active == if index == 0 then None else Some(Bytes(generations[0]))
        invariant forall x :: x in strays <==>
            x in old(strays) && (number(x).Some? ==> number(x).value < maxFileCount)
      {
        MoveUp(index, n, maxFileCount);
        index := index - 1;
      }
    }

    /** The three `require` calls refuse; otherwise the entry is written, after a rotation if need be. */
    method Append(content: Entry, maxFileBytes: int := MAX_FILE_BYTES, maxFileCount: int := MAX_FILE_COUNT)
      returns (outcome: Outcome)
      requires Valid()
      modifies this
      ensures Valid()
      ensures outcome.Refused? <==> maxFileBytes <= 0 || maxFileCount <= 0 || |content| > maxFileBytes
      ensures outcome.Refused? ==> generations == old(generations) && strays == old(strays)
      ensures outcome.Written? ==>
        && generations == Appended(old(generations), content, maxFileBytes, maxFileCount)
        && (outcome.rotated <==> old(active).Some? && old(active).value != []
                                 && |old(active).value| + |content| > maxFileBytes)
      ensures forall x :: x in strays <==>
                x in old(strays)
                && (outcome.Written? && outcome.rotated && number(x).Some? ==> number(x).value < maxFileCount)
    {
      if maxFileBytes <= 0 || maxFileCount <= 0 || |content| > maxFileBytes {
        return Refused;
      }
      var shouldRotate := active.Some? && |active.value| > 0 && |active.value| + |content| > maxFileBytes;
      if shouldRotate {
        Rotate(maxFileCount);
        Restart(content, maxFileBytes, maxFileCount);
      } else {
        Extend(content, maxFileBytes, maxFileCount);
      }
      return Written(shouldRotate);
    }

    /** `appendBytes` on a new file. */
    method Restart(content: Entry, ghost maxFileBytes: int, ghost maxFileCount: int)
      requires Accepted(content, maxFileBytes, maxFileCount) && MustRotate(generations, content, maxFileBytes)
      requires active.None? && Hold(backups, generations[..Min(maxFileCount - 1, |generations|)])
      modifies this`active, this`generations
      ensures Valid() && generations == Appended(old(generations), content, maxFileBytes, maxFileCount)
    {
      BytesOfOne(content);
      FreshHolds(backups, content, generations[..Min(maxFileCount - 1, |generations|)]);
      active := Some(content);
      generations := [[content]] + generations[..Min(maxFileCount - 1, |generations|)];
    }

    /** `appendBytes` on the file that is there, or on a new one if none is. */
    method Extend(content: Entry, ghost maxFileBytes: int, ghost maxFileCount: int)
      requires Valid()
      requires Accepted(content, maxFileBytes, maxFileCount) && !MustRotate(generations, content, maxFileBytes)
      modifies this`active, this`generations
      ensures Valid() && generations == Appended(old(generations), content, maxFileBytes, maxFileCount)
    {
      ghost var was := generations;
      BytesAppend(if was == [] then [] else was[0], content);
      assert [] + [content] == [content];
      active := Some((if active.Some? then active.value else []) + content);
      generations := [if was == [] then [content] else was[0] + [content]] + if was == [] then [] else was[1..];
      assert active.value == Bytes(generations[0]);
      assert generations[1..] == if was == [] then [] else was[1..];
    }
  }

  // ----- What the directory holds after any appends ----------------------------------------

  datatype Request = Request(entry: Entry, maxFileBytes: int, maxFileCount: int)

  predicate Taken(r: Request) {
    Accepted(r.entry, r.maxFileBytes, r.maxFileCount)
  }

  /** The generations after the requests, starting from an empty directory. */
  function Kept(rs: seq<Request>): seq<Generation> {
    if rs == [] then []
    else
      var gs, r := Kept(rs[..|rs| - 1]), rs[|rs| - 1];
      if Taken(r) then Appended(gs, r.entry, r.maxFileBytes, r.maxFileCount) else gs
  }

  /** Any number of appends to a directory without logs: it holds the generations of `Kept`. */
  method AppendAll(dir: LogDirectory, rs: seq<Request>)
    requires dir.Valid() && dir.generations == []
    modifies dir
    ensures dir.Valid() && dir.generations == Kept(rs)
  {
    for i := 0 to |rs|
      invariant dir.Valid() && dir.generations == Kept(rs[..i])
    {
      assert rs[..i + 1][..i] == rs[..i];
      var _ := dir.Append(rs[i].entry, rs[i].maxFileBytes, rs[i].maxFileCount);
    }
    assert rs[..|rs|] == rs;
  }

  /** Every entry that was accepted, in order. */
  function Entries(rs: seq<Request>): seq<Entry> {
    if rs == [] then []
    else
      var es, r := Entries(rs[..|rs| - 1]), rs[|rs| - 1];
      if Taken(r) then es + [r.entry] else es
  }

  /** The entries of all generations, the oldest generation first. */
  function Joined(gs: seq<Generation>): seq<Entry> {
    if gs == [] then [] else Joined(gs[1..]) + gs[0]
  }

  /** The bytes of all files, the oldest backup first and the active file last. */
  function OnDisk(gs: seq<Generation>): Entry {
    if gs == [] then [] else OnDisk(gs[1..]) + Bytes(gs[0])
  }

  lemma {:induction false} BytesConcat(a: seq<Entry>, b: seq<Entry>)
    ensures Bytes(a + b) == Bytes(a) + Bytes(b)
    decreases |b|
  {
    if b == [] {
      assert a + b == a;
    } else {
      var init, last := b[..|b| - 1], b[|b| - 1];
      BytesConcat(a, init);
      BytesAppend(a + init, last);
      assert a + b == (a + init) + [last];
      assert Bytes(b) == Bytes(init) + last;
      Associate(Bytes(a), Bytes(init), last);
    }
  }

  lemma Associate(a: Entry, b: Entry, c: Entry)
    ensures (a + b) + c == a + (b + c)
  {
  }

  lemma {:induction false} OnDiskIsJoined(gs: seq<Generation>)
    ensures OnDisk(gs) == Bytes(Joined(gs))
  {
    if gs == [] {
    } else {
      OnDiskIsJoined(gs[1..]);
      BytesConcat(Joined(gs[1..]), gs[0]);
    }
  }

  predicate Suffix(a: seq<Entry>, b: seq<Entry>) {
    |a| <= |b| && a == b[|b| - |a|..]
  }

  lemma {:induction false} NewestAreSuffix(gs: seq<Generation>, m: nat)
    requires m <= |gs|
    ensures Suffix(Joined(gs[..m]), Joined(gs))
  {
    if m > 0 {
      NewestAreSuffix(gs[1..], m - 1);
      assert gs[..m][1..] == gs[1..][..m - 1];
    }
  }

  lemma AppendedIsSuffix(gs: seq<Generation>, e: Entry, maxFileBytes: int, maxFileCount: int)
    requires Accepted(e, maxFileBytes, maxFileCount)
    ensures Suffix(Joined(Appended(gs, e, maxFileBytes, maxFileCount)), Joined(gs) + [e])
  {
    var gs' := Appended(gs, e, maxFileBytes, maxFileCount);
    if MustRotate(gs, e, maxFileBytes) {
      var kept := gs[..Min(maxFileCount - 1, |gs|)];
      NewestAreSuffix(gs, |kept|);
      assert gs' == [[e]] + kept && gs'[1..] == kept;
      assert Joined(gs') == Joined(kept) + [e];
    } else if gs != [] {
      assert gs'[1..] == gs[1..];
      assert Joined(gs') == Joined(gs[1..]) + (gs[0] + [e]);
    }
  }

  lemma SuffixTransitive(a: seq<Entry>, b: seq<Entry>, e: Entry, c: seq<Entry>)
    requires Suffix(a, b + [e]) && Suffix(b, c)
    ensures Suffix(a, c + [e])
  {
    var k := |c| - |b|;
    assert (c + [e])[k..] == b + [e];
    assert (c + [e])[|c| + 1 - |a|..] == (c + [e])[k..][|b| + 1 - |a|..];
  }

  lemma {:induction false} KeptIsSuffix(rs: seq<Request>)
    ensures Suffix(Joined(Kept(rs)), Entries(rs))
  {
    if rs == [] {
    } else {
      var init, r := rs[..|rs| - 1], rs[|rs| - 1];
      KeptIsSuffix(init);
      if Taken(r) {
        AppendedIsSuffix(Kept(init), r.entry, r.maxFileBytes, r.maxFileCount);
        SuffixTransitive(Joined(Kept(rs)), Joined(Kept(init)), r.entry, Entries(init));
      }
    }
  }

  /**
   * Whatever the limits of each request, the files read from the oldest backup to the active
   * one are the end of everything appended, cut between two entries.
   */
  lemma DiskHoldsTheNewest(rs: seq<Request>)
    ensures Suffix(Joined(Kept(rs)), Entries(rs))
    ensures exists k | 0 <= k <= |Entries(rs)| :: OnDisk(Kept(rs)) == Bytes(Entries(rs)[k..])
  {
    KeptIsSuffix(rs);
    OnDiskIsJoined(Kept(rs));
    var k := |Entries(rs)| - |Joined(Kept(rs))|;
    assert OnDisk(Kept(rs)) == Bytes(Entries(rs)[k..]);
  }

  // ----- With limits that never change -----------------------------------------------------

  ghost predicate Fixed(rs: seq<Request>, maxFileBytes: int, maxFileCount: int) {
    forall i | 0 <= i < |rs| :: rs[i].maxFileBytes == maxFileBytes && rs[i].maxFileCount == maxFileCount
  }

  /** Something that was appended is on disk no more. */
  predicate Dropped(rs: seq<Request>) {
    |Joined(Kept(rs))| < |Entries(rs)|
  }

  ghost predicate WithinLimits(gs: seq<Generation>, maxFileBytes: int, maxFileCount: int) {
    && |gs| <= maxFileCount
    && (forall i | 0 <= i < |gs| :: |Bytes(gs[i])| <= maxFileBytes)
    && (forall i | 0 <= i < |gs| - 1 :: |Bytes(gs[i])| + |Bytes(gs[i + 1])| > maxFileBytes)
  }

  lemma AppendKeepsLimits(gs: seq<Generation>, e: Entry, maxFileBytes: int, maxFileCount: int)
    requires Accepted(e, maxFileBytes, maxFileCount) && WithinLimits(gs, maxFileBytes, maxFileCount)
    ensures WithinLimits(Appended(gs, e, maxFileBytes, maxFileCount), maxFileBytes, maxFileCount)
  {
    var gs' := Appended(gs, e, maxFileBytes, maxFileCount);
    BytesOfOne(e);
    if gs != [] && !MustRotate(gs, e, maxFileBytes) {
      BytesAppend(gs[0], e);
      assert forall i | 1 <= i < |gs'| :: gs'[i] == gs[i];
    } else if gs != [] {
      assert forall i | 1 <= i < |gs'| :: gs'[i] == gs[i - 1];
    }
  }

  /** A request drops something only when it rotates a full set of generations. */
  lemma OnlyFullDrops(gs: seq<Generation>, e: Entry, maxFileBytes: int, maxFileCount: int)
    requires Accepted(e, maxFileBytes, maxFileCount) && WithinLimits(gs, maxFileBytes, maxFileCount)
    ensures var gs' := Appended(gs, e, maxFileBytes, maxFileCount);
            && |gs'| >= |gs|
            && (|gs'| < maxFileCount ==> |Joined(gs')| == |Joined(gs)| + 1)
            && (MustRotate(gs, e, maxFileBytes) ==> |Bytes(gs'[0])| > 0)
            && (!MustRotate(gs, e, maxFileBytes) ==> |Joined(gs')| == |Joined(gs)| + 1)
            && (gs != [] ==> |Bytes(gs'[0])| >= |Bytes(gs[0])| || |Bytes(gs'[0])| > 0)
  {
    var gs' := Appended(gs, e, maxFileBytes, maxFileCount);
    BytesOfOne(e);
    if gs != [] && !MustRotate(gs, e, maxFileBytes) {
      BytesAppend(gs[0], e);
      assert gs'[1..] == gs[1..];
    } else if gs != [] {
      assert gs'[1..] == gs[..Min(maxFileCount - 1, |gs|)];
      assert gs[..|gs|] == gs;
    }
  }

  lemma {:induction false} KeptWithinLimits(rs: seq<Request>, maxFileBytes: int, maxFileCount: int)
    requires Fixed(rs, maxFileBytes, maxFileCount) && maxFileCount > 0
    ensures WithinLimits(Kept(rs), maxFileBytes, maxFileCount)
    ensures Dropped(rs) ==> |Kept(rs)| == maxFileCount && |Bytes(Kept(rs)[0])| > 0
  {
    if rs == [] {
    } else {
      var init, r := rs[..|rs| - 1], rs[|rs| - 1];
      KeptWithinLimits(init, maxFileBytes, maxFileCount);
      if Taken(r) {
        AppendKeepsLimits(Kept(init), r.entry, maxFileBytes, maxFileCount);
        OnlyFullDrops(Kept(init), r.entry, maxFileBytes, maxFileCount);
      }
    }
  }

  lemma OneMore(k: nat, m: int)
    ensures (k + 1) * m == k * m + m
  {
  }

  lemma {:induction false} TimesGrows(a: nat, b: nat, m: nat)
    requires a <= b
    ensures a * m <= b * m
  {
    if a < b {
      TimesGrows(a, b - 1, m);
      OneMore(b - 1, m);
    }
  }

  lemma {:induction false} AtMostAllFull(gs: seq<Generation>, maxFileBytes: nat)
    requires forall i | 0 <= i < |gs| :: |Bytes(gs[i])| <= maxFileBytes
    ensures |OnDisk(gs)| <= |gs| * maxFileBytes
  {
    if gs == [] {
    } else {
      AtMostAllFull(gs[1..], maxFileBytes);
      OneMore(|gs| - 1, maxFileBytes);
    }
  }

  /** Two neighbours at a time, a run of generations holds more than half of what it may. */
  lemma {:induction false} PairsAreLarge(gs: seq<Generation>, pairs: nat, maxFileBytes: nat)
    requires 2 * pairs <= |gs|
    requires forall i | 0 <= i < |gs| - 1 :: |Bytes(gs[i])| + |Bytes(gs[i + 1])| > maxFileBytes
    ensures |OnDisk(gs)| >= pairs * maxFileBytes + pairs
    decreases pairs
  {
    if pairs > 0 {
      var rest := gs[2..];
      assert gs[1..][1..] == rest;
      PairsAreLarge(rest, pairs - 1, maxFileBytes);
      assert |OnDisk(gs[1..])| == |OnDisk(rest)| + |Bytes(gs[1])|;
      OneMore(pairs - 1, maxFileBytes);
    }
  }

  /**
   * With fixed limits: at most maxFileCount files of at most maxFileBytes; and once anything
   * has been dropped, more than half the files' worth of bytes, rounded down, is still there.
   */
  lemma RetentionIsBounded(rs: seq<Request>, maxFileBytes: int, maxFileCount: int)
    requires Fixed(rs, maxFileBytes, maxFileCount) && maxFileBytes > 0 && maxFileCount > 0
    ensures |Kept(rs)| <= maxFileCount
    ensures forall i | 0 <= i < |Kept(rs)| :: |Bytes(Kept(rs)[i])| <= maxFileBytes
    ensures |OnDisk(Kept(rs))| <= maxFileCount * maxFileBytes
    ensures Dropped(rs) ==> |OnDisk(Kept(rs))| > maxFileCount / 2 * maxFileBytes
  {
    var gs := Kept(rs);
    KeptWithinLimits(rs, maxFileBytes, maxFileCount);
    AtMostAllFull(gs, maxFileBytes);
    TimesGrows(|gs|, maxFileCount, maxFileBytes);
    PairsAreLarge(gs, |gs| / 2, maxFileBytes);
    if Dropped(rs) && maxFileCount == 1 {
      assert OnDisk(gs) == OnDisk(gs[1..]) + Bytes(gs[0]);
    }
  }
}
