/**
 * The migration script catalog: the directory listing of the migration
 * directory, the version-keyed map that sorts and de-duplicates its
 * scripts, and the scan that fills that map with the scripts between the
 * recorded version and the target.
 */
module Catalog {
  import opened Wrappers
  import opened Versions
  import Dbtools

  /** One entry of the listing: its file stem, whether it is a regular file, its extension. */
  datatype DirEntry = DirEntry(stem: string, isRegularFile: bool, extension: string)

  /** What is found at the migration directory's path; a listing comes in iteration order. */
  datatype Directory = Absent | NonDirectory | Listing(entries: seq<DirEntry>)

  /** A migration script: the version its stem names and the path of its file. */
  datatype Script = Script(version: Version, path: string)

  // ---------------------------------------------------------------------
  // The version-keyed map, as the ascending sequence of its entries.
  // ---------------------------------------------------------------------

  /** Keys strictly ascend, so each version occurs at most once. */
  ghost predicate Ascending(m: seq<Script>) {
    forall i, j :: 0 <= i < j < |m| ==> Less(m[i].version, m[j].version)
  }

  /** Every key of `m` comes after `b`. */
  ghost predicate Above(b: Version, m: seq<Script>) {
    forall i :: 0 <= i < |m| ==> Less(b, m[i].version)
  }

  /** The path the map holds for version `k`. */
  function Lookup(m: seq<Script>, k: Version): Option<string> {
    if m == [] then None
    else if m[0].version == k then Some(m[0].path)
    else Lookup(m[1..], k)
  }

  /** `m[k] = p`: adds the key, or overwrites the path it already maps to, keeping the order. */
  function Insert(m: seq<Script>, k: Version, p: string): (r: seq<Script>)
    requires Ascending(m)
    ensures Ascending(r)
    ensures forall x :: Lookup(r, x) == if x == k then Some(p) else Lookup(m, x)
    ensures forall b :: Above(b, m) && Less(b, k) ==> Above(b, r)
  {
    if m == [] then [Script(k, p)]
    else if m[0].version == k then
      assert ([Script(k, p)] + m[1..])[1..] == m[1..];
      [Script(k, p)] + m[1..]
    else if Less(k, m[0].version) then
      BelowHead(k, m);
      [Script(k, p)] + m
    else
      LessTrichotomy(k, m[0].version);
      LessIrreflexive(k);
      assert Above(m[0].version, m[1..]);
      var rest := Insert(m[1..], k, p);
      assert ([m[0]] + rest)[1..] == rest;
      [m[0]] + rest
  }

  lemma BelowHead(k: Version, m: seq<Script>)
    requires Ascending(m) && m != [] && Less(k, m[0].version)
    ensures Above(k, m)
  {
    forall i | 0 < i < |m|
      ensures Less(k, m[i].version)
    {
      LessTransitive(k, m[0].version, m[i].version);
    }
  }

  /** A version below every key is not in the map. */
  lemma {:induction false} LookupBelow(m: seq<Script>, k: Version)
    requires Ascending(m) && Above(k, m)
    ensures Lookup(m, k) == None
  {
    if m != [] {
      LessIrreflexive(k);
      LookupBelow(m[1..], k);
    }
  }

  /** Each entry of an ascending map is what the map holds for its key. */
  lemma {:induction false} LookupAt(m: seq<Script>, i: nat)
    requires Ascending(m) && i < |m|
    ensures Lookup(m, m[i].version) == Some(m[i].path)
  {
    if i > 0 {
      LessIrreflexive(m[i].version);
      assert Less(m[0].version, m[i].version);
      LookupAt(m[1..], i - 1);
    }
  }

  /** The tail of the map from entry j on holds exactly the keys from m[j]'s key on. */
  lemma {:induction false} LookupSuffix(m: seq<Script>, j: nat, k: Version)
    requires Ascending(m) && j < |m|
    ensures Lookup(m[j..], k) == if LessEq(m[j].version, k) then Lookup(m, k) else None
  {
    if j == 0 {
      assert m[0..] == m;
      if !LessEq(m[0].version, k) {
        LessTrichotomy(k, m[0].version);
        BelowHead(k, m);
        LookupBelow(m, k);
      }
    } else {
      assert m[j..] == m[1..][j - 1..];
      LookupSuffix(m[1..], j - 1, k);
      if m[0].version == k {
        assert Less(m[0].version, m[j].version);
        LessAsymmetric(m[0].version, m[j].version);
        LessIrreflexive(k);
      }
    }
  }

  /** Two ascending maps that agree on every key are the same map. */
  lemma {:induction false} LookupExtensional(m1: seq<Script>, m2: seq<Script>)
    requires Ascending(m1) && Ascending(m2)
    requires forall k :: Lookup(m1, k) == Lookup(m2, k)
    ensures m1 == m2
  {
    if m2 != [] {
      assert Lookup(m1, m2[0].version) == Some(m2[0].path);
    }
    if m1 != [] {
      assert Lookup(m2, m1[0].version) == Some(m1[0].path);
    }
    if m1 != [] && m2 != [] {
      var k1, k2 := m1[0].version, m2[0].version;
      LessTrichotomy(k1, k2);
      if Less(k1, k2) {
        BelowHead(k1, m2);
        LookupBelow(m2, k1);
        assert false;
      }
      if Less(k2, k1) {
        BelowHead(k2, m1);
        LookupBelow(m1, k2);
        assert false;
      }
      assert Lookup(m1, k1) == Lookup(m2, k1);
      forall k
        ensures Lookup(m1[1..], k) == Lookup(m2[1..], k)
      {
        if k == k1 {
          assert Above(k1, m1[1..]) && Above(k1, m2[1..]);
          LookupBelow(m1[1..], k);
          LookupBelow(m2[1..], k);
        } else {
          assert Lookup(m1, k) == Lookup(m2, k);
        }
      }
      LookupExtensional(m1[1..], m2[1..]);
      assert m1 == [m1[0]] + m1[1..] && m2 == [m2[0]] + m2[1..];
    }
  }

  // ---------------------------------------------------------------------
  // Scanning the listing.
  // ---------------------------------------------------------------------

  /** Only regular files with the script extension are migration scripts. */
  predicate Eligible(e: DirEntry)
    ensures Eligible(e) <==> e.isRegularFile && e.extension == ".sql"
  {
    e.isRegularFile && e.extension == Dbtools.SqlExtension
  }

  /** A script whose stem the version library rejects. */
  predicate Unparsable(e: DirEntry, parse: string -> Option<Version>) {
    Eligible(e) && parse(e.stem).None?
  }

  predicate AllParsable(entries: seq<DirEntry>, parse: string -> Option<Version>) {
    forall i :: 0 <= i < |entries| ==> !Unparsable(entries[i], parse)
  }

  /** The scripts that lead from `current` to `target`: `current <= v < target`. */
  predicate InRange(current: Version, v: Version, target: Version) {
    LessEq(current, v) && Less(v, target)
  }

  /** The path of an entry: its file name in the scanned directory. */
  function EntryPath(dir: string, e: DirEntry): (p: string)
    ensures var name := e.stem + e.extension;
      && |p| >= |name| && p[|p| - |name|..] == name
      && p[..|p| - |name|] == (if dir != [] && dir[|dir| - 1] != '/' then dir + "/" else dir)
      && (dir != [] ==> p[|p| - |name| - 1] == '/')
  {
    Dbtools.Join(dir, e.stem + e.extension)
  }

  /** One iteration of the scan: skip, fail on an unparsable stem, or store the script. */
  function Step(dir: string, acc: seq<Script>, e: DirEntry, current: Version, target: Version,
                parse: string -> Option<Version>): (r: Result<seq<Script>, string>)
    requires Ascending(acc)
    ensures r.Success? ==> Ascending(r.value)
    ensures r.Failure? <==> Unparsable(e, parse)
    ensures r.Failure? ==> r.error == e.stem
    ensures r.Success? && Eligible(e) && parse(e.stem).Some? &&
            InRange(current, parse(e.stem).value, target) ==>
              r.value == Insert(acc, parse(e.stem).value, EntryPath(dir, e))
    ensures r.Success? &&
            !(Eligible(e) && parse(e.stem).Some? && InRange(current, parse(e.stem).value, target)) ==>
              r.value == acc
  {
    if !Eligible(e) then Success(acc)
    else match parse(e.stem)
      case None => Failure(e.stem)
      case Some(ver) =>
        KeptIffInRange(current, ver, target);
        if Less(ver, current) then Success(acc)
        else if LessEq(target, ver) then Success(acc)
        else Success(Insert(acc, ver, EntryPath(dir, e)))
  }

  /** The map after visiting every entry in iteration order, or the first unparsable stem. */
  function Scan(dir: string, entries: seq<DirEntry>, current: Version, target: Version,
                parse: string -> Option<Version>): (r: Result<seq<Script>, string>)
    ensures r.Success? ==> Ascending(r.value)
    decreases |entries|
  {
    if entries == [] then Success([])
    else
      match Scan(dir, entries[..|entries| - 1], current, target, parse)
      case Failure(stem) => Failure(stem)
      case Success(acc) => Step(dir, acc, entries[|entries| - 1], current, target, parse)
  }

  /** The path of the last script in iteration order whose stem names version `k`. */
  function LastPath(dir: string, entries: seq<DirEntry>, k: Version,
                    parse: string -> Option<Version>): Option<string>
    decreases |entries|
  {
    if entries == [] then None
    else
      var e := entries[|entries| - 1];
      if Eligible(e) && parse(e.stem) == Some(k) then Some(EntryPath(dir, e))
      else LastPath(dir, entries[..|entries| - 1], k, parse)
  }

  /** The two skip tests of the scan together keep exactly the versions in range. */
  lemma KeptIffInRange(current: Version, v: Version, target: Version)
    ensures !Less(v, current) && !LessEq(target, v) <==> InRange(current, v, target)
  {
    NotLessIsLessEq(current, v);
    NotLessIsLessEq(v, target);
    LessTrichotomy(v, target);
    LessIrreflexive(v);
    if Less(v, target) {
      LessAsymmetric(v, target);
    }
  }

  /** The scan fails exactly when some script stem is unparsable, and then on the first one. */
  lemma {:induction false} ScanFailure(dir: string, entries: seq<DirEntry>, current: Version,
                                       target: Version, parse: string -> Option<Version>)
    ensures Scan(dir, entries, current, target, parse).Success? <==> AllParsable(entries, parse)
    ensures Scan(dir, entries, current, target, parse).Failure? ==>
      exists i :: 0 <= i < |entries| && Unparsable(entries[i], parse) && AllParsable(entries[..i], parse)
                  && Scan(dir, entries, current, target, parse).error == entries[i].stem
    decreases |entries|
  {
    if entries != [] {
      var n := |entries| - 1;
      var prefix := entries[..n];
      ScanFailure(dir, prefix, current, target, parse);
      match Scan(dir, prefix, current, target, parse)
      case Failure(stem) =>
        var i :| 0 <= i < |prefix| && Unparsable(prefix[i], parse) && AllParsable(prefix[..i], parse)
                 && stem == prefix[i].stem;
        assert entries[i] == prefix[i];
        assert entries[..i] == prefix[..i];
      case Success(acc) =>
        assert entries[..n] == prefix;
        if !Unparsable(entries[n], parse) {
          assert forall i :: 0 <= i < n ==> entries[i] == prefix[i];
        }
    }
  }

  /** What the scan stores: for each version in range, the path of the last script naming it. */
  lemma {:induction false} ScanContents(dir: string, entries: seq<DirEntry>, current: Version,
                                        target: Version, parse: string -> Option<Version>, k: Version)
    requires Scan(dir, entries, current, target, parse).Success?
    ensures Lookup(Scan(dir, entries, current, target, parse).value, k) ==
              if InRange(current, k, target) then LastPath(dir, entries, k, parse) else None
    decreases |entries|
  {
    if entries != [] {
      var n := |entries| - 1;
      var prefix := entries[..n];
      var e := entries[n];
      ScanContents(dir, prefix, current, target, parse, k);
      if Eligible(e) {
        var ver := parse(e.stem).value;
        KeptIffInRange(current, ver, target);
      }
    }
  }

  /** Every stored script lies in range and is the last script in the listing naming its version. */
  lemma ScanSelects(dir: string, entries: seq<DirEntry>, current: Version, target: Version,
                    parse: string -> Option<Version>, i: nat)
    requires Scan(dir, entries, current, target, parse).Success?
    requires i < |Scan(dir, entries, current, target, parse).value|
    ensures var s := Scan(dir, entries, current, target, parse).value[i];
      InRange(current, s.version, target) && LastPath(dir, entries, s.version, parse) == Some(s.path)
  {
    var m := Scan(dir, entries, current, target, parse).value;
    LookupAt(m, i);
    ScanContents(dir, entries, current, target, parse, m[i].version);
  }

  /**
   * Scanning again from the version of the j-th planned script yields the
   * plan from that script on: the same tail, in the same order.
   */
  lemma ScanResume(dir: string, entries: seq<DirEntry>, current: Version, target: Version,
                   parse: string -> Option<Version>, j: nat)
    requires Scan(dir, entries, current, target, parse).Success?
    requires j < |Scan(dir, entries, current, target, parse).value|
    ensures var plan := Scan(dir, entries, current, target, parse).value;
      Scan(dir, entries, plan[j].version, target, parse) == Success(plan[j..])
  {
    var plan := Scan(dir, entries, current, target, parse).value;
    var c2 := plan[j].version;
    ScanFailure(dir, entries, current, target, parse);
    ScanFailure(dir, entries, c2, target, parse);
    var plan2 := Scan(dir, entries, c2, target, parse).value;
    ScanSelects(dir, entries, current, target, parse, j);
    forall k
      ensures Lookup(plan2, k) == Lookup(plan[j..], k)
    {
      ScanContents(dir, entries, c2, target, parse, k);
      ScanContents(dir, entries, current, target, parse, k);
      LookupSuffix(plan, j, k);
      if LessEq(c2, k) {
        LessEqTransitive(current, c2, k);
      }
    }
    LookupExtensional(plan2, plan[j..]);
  }

  /** Once a prefix of the listing fails to scan, the whole listing fails the same way. */
  lemma {:induction false} ScanFailurePersists(dir: string, entries: seq<DirEntry>, n: nat,
                                               current: Version,
                                               target: Version, parse: string -> Option<Version>)
    requires n <= |entries|
    requires Scan(dir, entries[..n], current, target, parse).Failure?
    ensures Scan(dir, entries, current, target, parse) == Scan(dir, entries[..n], current, target, parse)
    decreases |entries|
  {
    if n == |entries| {
      assert entries[..n] == entries;
    } else {
      var prefix := entries[..|entries| - 1];
      assert prefix[..n] == entries[..n];
      ScanFailurePersists(dir, prefix, n, current, target, parse);
    }
  }

  /** The loop of the runner that fills the version-keyed map from the listing. */
  method ScanMigrations(dir: string, entries: seq<DirEntry>, current: Version, target: Version,
                        parse: string -> Option<Version>) returns (r: Result<seq<Script>, string>)
    ensures r == Scan(dir, entries, current, target, parse)
  {
    var migrations: seq<Script> := [];
    for i := 0 to |entries|
      invariant Scan(dir, entries[..i], current, target, parse) == Success(migrations)
    {
      var entry := entries[i];
      assert entries[..i + 1][..i] == entries[..i];
      if !(entry.isRegularFile && entry.extension == Dbtools.SqlExtension) {
        continue;
      }
      var parsed := parse(entry.stem);
      if parsed.None? {
        ScanFailurePersists(dir, entries, i + 1, current, target, parse);
        return Failure(entry.stem);
      }
      var ver := parsed.value;
      if Less(ver, current) {
        continue;
      }
      if LessEq(target, ver) {
        continue;
      }
      migrations := Insert(migrations, ver, EntryPath(dir, entry));
    }
    assert entries[..|entries|] == entries;
    return Success(migrations);
  }
}
