/**
 * The change detector for the data folder (`compute_data_fingerprint` in
 * `ijunavi/rag_service.py`): the allow-listed CSV files found under the data
 * folder, each as `(name, size, whole-second mtime)`, sorted by name, plus a
 * digest of that list. The file walk is the sequence of files it discovers,
 * in discovery order; SHA-256 of the JSON text is the parameter `digest`.
 */
module Fingerprint {
  import opened Common

  /** A `*.csv` file found by the walk: its base name, `st_size` and `st_mtime`. */
  datatype FileEntry = FileEntry(name: string, size: nat, mtime: real)

  /** One entry of the fingerprint's `files` list. */
  datatype FileItem = FileItem(name: string, size: nat, mtime: int)

  /** The fingerprint: `{"files": [...], "hash": ...}`. */
  datatype DataFingerprint = DataFingerprint(files: seq<FileItem>, hash: string)

  /** The only CSV names the build reads. */
  const AllowedCsv: set<string> := {"2024人口.csv", "2024医療.csv", "2024居住.csv", "2024教育.csv", "tenpo2511.csv"}

  /** Python's `<=` on strings: code point by code point, a prefix first. */
  predicate LexLe(a: string, b: string)
  {
    a == [] || (b != [] && (a[0] < b[0] || (a[0] == b[0] && LexLe(a[1..], b[1..]))))
  }

  lemma {:induction false} LexLeTotal(a: string, b: string)
    ensures LexLe(a, b) || LexLe(b, a)
  {
    if a != [] && b != [] && a[0] == b[0] {
      LexLeTotal(a[1..], b[1..]);
    }
  }

  lemma {:induction false} LexLeAntisymmetric(a: string, b: string)
    requires LexLe(a, b) && LexLe(b, a)
    ensures a == b
  {
    if a != [] {
      LexLeAntisymmetric(a[1..], b[1..]);
      assert a == [a[0]] + a[1..] && b == [b[0]] + b[1..];
    }
  }

  lemma {:induction false} LexLeTransitive(a: string, b: string, c: string)
    requires LexLe(a, b) && LexLe(b, c)
    ensures LexLe(a, c)
  {
    if a != [] && a[0] == b[0] && b[0] == c[0] {
      LexLeTransitive(a[1..], b[1..], c[1..]);
    }
  }

  /** The list is in ascending order of names. */
  predicate SortedByName(s: seq<FileItem>)
  {
    forall i, j :: 0 <= i < j < |s| ==> LexLe(s[i].name, s[j].name)
  }

  /** No two entries share a name. */
  predicate DistinctNames(s: seq<FileItem>)
  {
    forall i, j :: 0 <= i < j < |s| ==> s[i].name != s[j].name
  }

  /** Inserts `x` after every entry whose name is not greater than its own. */
  function Insert(x: FileItem, s: seq<FileItem>): (r: seq<FileItem>)
    ensures multiset(r) == multiset(s) + multiset{x}
  {
    if s == [] then [x]
    else if LexLe(x.name, s[0].name) && x.name != s[0].name then [x] + s
    else
      assert s == [s[0]] + s[1..];
      [s[0]] + Insert(x, s[1..])
  }

  /** `items.sort(key=lambda x: x["name"])`: a stable sort by name. */
  function SortByName(s: seq<FileItem>): (r: seq<FileItem>)
    ensures multiset(r) == multiset(s)
  {
    if s == [] then []
    else
      assert s == s[..|s| - 1] + [s[|s| - 1]];
      Insert(s[|s| - 1], SortByName(s[..|s| - 1]))
  }

  lemma {:induction false} InsertSorted(x: FileItem, s: seq<FileItem>)
    requires SortedByName(s)
    ensures SortedByName(Insert(x, s))
  {
    if s == [] {
    } else if LexLe(x.name, s[0].name) && x.name != s[0].name {
      forall j | 0 <= j < |s|
        ensures LexLe(x.name, s[j].name)
      {
        if j > 0 {
          LexLeTransitive(x.name, s[0].name, s[j].name);
        }
      }
    } else {
      InsertSorted(x, s[1..]);
      var t := Insert(x, s[1..]);
      LexLeTotal(x.name, s[0].name);
      if LexLe(x.name, s[0].name) {
        LexLeAntisymmetric(x.name, s[0].name);
      }
      forall j | 0 <= j < |t|
        ensures LexLe(s[0].name, t[j].name)
      {
        assert t[j] in multiset(t);
        if t[j] != x {
          assert t[j] in multiset(s[1..]);
          var i :| 0 <= i < |s[1..]| && s[1..][i] == t[j];
          assert s[i + 1] == t[j];
        }
      }
    }
  }

  lemma {:induction false} SortByNameSorted(s: seq<FileItem>)
    ensures SortedByName(SortByName(s))
  {
    if s != [] {
      SortByNameSorted(s[..|s| - 1]);
      InsertSorted(s[|s| - 1], SortByName(s[..|s| - 1]));
    }
  }

  /** The entries named `n`, in list order. */
  function WithName(s: seq<FileItem>, n: string): seq<FileItem>
  {
    if s == [] then [] else (if s[0].name == n then [s[0]] else []) + WithName(s[1..], n)
  }

  lemma {:induction false} WithNameAppend(a: seq<FileItem>, b: seq<FileItem>, n: string)
    ensures WithName(a + b, n) == WithName(a, n) + WithName(b, n)
  {
    if a == [] {
      assert a + b == b;
    } else {
      assert (a + b)[0] == a[0] && (a + b)[1..] == a[1..] + b;
      WithNameAppend(a[1..], b, n);
    }
  }

  lemma {:induction false} WithNameNone(s: seq<FileItem>, n: string)
    requires forall j :: 0 <= j < |s| ==> s[j].name != n
    ensures WithName(s, n) == []
  {
    if s != [] {
      WithNameNone(s[1..], n);
    }
  }

  /** No entry of a sorted list whose first name is above `n` is named `n`. */
  lemma NoneNamedBelowHead(s: seq<FileItem>, n: string)
    requires SortedByName(s) && s != []
    requires LexLe(n, s[0].name) && n != s[0].name
    ensures WithName(s, n) == []
  {
    forall j | 0 <= j < |s|
      ensures s[j].name != n
    {
      if j > 0 && s[j].name == n {
        LexLeAntisymmetric(n, s[0].name);
      }
    }
    WithNameNone(s, n);
  }

  lemma WithNameCons(y: FileItem, t: seq<FileItem>, n: string)
    ensures WithName([y] + t, n) == (if y.name == n then [y] else []) + WithName(t, n)
  {
    assert ([y] + t)[0] == y && ([y] + t)[1..] == t;
  }

  /** Inserting into a sorted list puts the new entry after the entries of the same name. */
  lemma {:induction false} InsertWithName(x: FileItem, s: seq<FileItem>, n: string)
    requires SortedByName(s)
    ensures WithName(Insert(x, s), n) == WithName(s, n) + (if x.name == n then [x] else [])
    decreases |s|, 1
  {
    if s == [] {
      WithNameCons(x, [], n);
    } else if LexLe(x.name, s[0].name) && x.name != s[0].name {
      if x.name == n {
        NoneNamedBelowHead(s, n);
      }
      WithNameCons(x, s, n);
    } else {
      InsertWithNameSkip(x, s, n);
    }
  }

  lemma {:induction false} InsertWithNameSkip(x: FileItem, s: seq<FileItem>, n: string)
    requires SortedByName(s) && s != []
    requires !(LexLe(x.name, s[0].name) && x.name != s[0].name)
    ensures WithName(Insert(x, s), n) == WithName(s, n) + (if x.name == n then [x] else [])
    decreases |s|, 0
  {
    var h, t := (if s[0].name == n then [s[0]] else []), (if x.name == n then [x] else []);
    SortedTail(s);
    InsertWithName(x, s[1..], n);
    calc {
      WithName(Insert(x, s), n);
      { WithNameCons(s[0], Insert(x, s[1..]), n); }
      h + WithName(Insert(x, s[1..]), n);
      h + (WithName(s[1..], n) + t);
      (h + WithName(s[1..], n)) + t;
      WithName(s, n) + t;
    }
  }

  lemma SortedTail(s: seq<FileItem>)
    requires SortedByName(s) && s != []
    ensures SortedByName(s[1..])
  {
  }

  /** The sort is stable: the entries of each name keep their relative order. */
  lemma {:induction false} SortByNameStable(s: seq<FileItem>, n: string)
    ensures WithName(SortByName(s), n) == WithName(s, n)
  {
    if s != [] {
      var p, x := s[..|s| - 1], s[|s| - 1];
      assert s == p + [x];
      assert SortByName(s) == Insert(x, SortByName(p));
      SortByNameStable(p, n);
      SortByNameSorted(p);
      InsertWithName(x, SortByName(p), n);
      WithNameAppend(p, [x], n);
      WithNameCons(x, [], n);
    }
  }

  /** Two name-sorted lists without repeated names that hold the same entries are the same list. */
  lemma {:induction false} SortedUnique(a: seq<FileItem>, b: seq<FileItem>)
    requires SortedByName(a) && DistinctNames(a)
    requires SortedByName(b) && DistinctNames(b)
    requires multiset(a) == multiset(b)
    ensures a == b
  {
    if a == [] {
      assert |multiset(b)| == 0;
    } else {
      assert a[0] in multiset(b);
      SameHead(a, b);
      MultisetTail(a);
      MultisetTail(b);
      SortedUnique(a[1..], b[1..]);
      assert a == [a[0]] + a[1..] && b == [b[0]] + b[1..];
    }
  }

  /** Such lists start with the same entry. */
  lemma SameHead(a: seq<FileItem>, b: seq<FileItem>)
    requires SortedByName(a) && DistinctNames(a)
    requires SortedByName(b) && DistinctNames(b)
    requires multiset(a) == multiset(b) && a != [] && b != []
    ensures a[0] == b[0]
  {
    assert b[0] in multiset(a);
    assert a[0] in multiset(b);
    var i :| 0 <= i < |a| && a[i] == b[0];
    var j :| 0 <= j < |b| && b[j] == a[0];
    if i != 0 {
      if j != 0 {
        LexLeAntisymmetric(a[0].name, b[0].name);
      }
      assert false;
    }
  }

  lemma MultisetTail(s: seq<FileItem>)
    requires s != []
    ensures multiset(s[1..]) == multiset(s) - multiset{s[0]}
  {
    assert s == [s[0]] + s[1..];
  }

  /** The entry recorded for a file: `int(st_mtime)` truncates the timestamp. */
  function ItemOf(e: FileEntry): FileItem
  {
    FileItem(e.name, e.size, Trunc(e.mtime))
  }

  /** The entries of the allow-listed files, in discovery order. */
  function AllowedItems(found: seq<FileEntry>): (r: seq<FileItem>)
    ensures |r| <= |found|
    ensures forall k :: 0 <= k < |r| ==> r[k].name in AllowedCsv
  {
    if found == [] then []
    else
      var e := found[|found| - 1];
      AllowedItems(found[..|found| - 1]) + (if e.name in AllowedCsv then [ItemOf(e)] else [])
  }

  /** An entry is listed exactly when some allow-listed file was found with it. */
  lemma {:induction false} AllowedItemsMembers(found: seq<FileEntry>, x: FileItem)
    ensures x in AllowedItems(found) <==> exists k :: 0 <= k < |found| && found[k].name in AllowedCsv && ItemOf(found[k]) == x
  {
    if found != [] {
      var init := found[..|found| - 1];
      AllowedItemsMembers(init, x);
      if exists k :: 0 <= k < |init| && init[k].name in AllowedCsv && ItemOf(init[k]) == x {
        var k :| 0 <= k < |init| && init[k].name in AllowedCsv && ItemOf(init[k]) == x;
        assert found[k] == init[k];
      }
      if exists k :: 0 <= k < |found| && found[k].name in AllowedCsv && ItemOf(found[k]) == x {
        var k :| 0 <= k < |found| && found[k].name in AllowedCsv && ItemOf(found[k]) == x;
        if k < |init| {
          assert init[k] == found[k];
        }
      }
    }
  }

  /** The fingerprint of the files found: sorted entries and the digest of exactly that list. */
  function FingerprintOf(found: seq<FileEntry>, digest: seq<FileItem> -> string): DataFingerprint
  {
    var files := SortByName(AllowedItems(found));
    DataFingerprint(files, digest(files))
  }

  /** `compute_data_fingerprint()` over the files the walk found. */
  method ComputeDataFingerprint(found: seq<FileEntry>, digest: seq<FileItem> -> string) returns (fp: DataFingerprint)
    ensures fp == FingerprintOf(found, digest)
  {
    var items: seq<FileItem> := [];
    for i := 0 to |found|
      invariant items == AllowedItems(found[..i])
    {
      assert found[..i + 1][..i] == found[..i];
      var p := found[i];
      if p.name in AllowedCsv {
        items := items + [FileItem(p.name, p.size, Trunc(p.mtime))];
      }
    }
    assert found[..|found|] == found;
    var files := SortByName(items);
    fp := DataFingerprint(files, digest(files));
  }

  /** The `files` list holds only allow-listed names, in ascending order, and exactly the entries found. */
  lemma FingerprintShape(found: seq<FileEntry>, digest: seq<FileItem> -> string)
    ensures forall k :: 0 <= k < |FingerprintOf(found, digest).files| ==> FingerprintOf(found, digest).files[k].name in AllowedCsv
    ensures SortedByName(FingerprintOf(found, digest).files)
    ensures multiset(FingerprintOf(found, digest).files) == multiset(AllowedItems(found))
  {
    var items := AllowedItems(found);
    var files := SortByName(items);
    SortByNameSorted(items);
    forall k | 0 <= k < |files|
      ensures files[k].name in AllowedCsv
    {
      assert files[k] in multiset(items);
    }
  }

  /**
   * The fingerprint does not depend on the order in which the files were found:
   * the same entries, none sharing a name, give the same list and the same hash.
   */
  lemma DiscoveryOrderIrrelevant(found1: seq<FileEntry>, found2: seq<FileEntry>, digest: seq<FileItem> -> string)
    requires multiset(AllowedItems(found1)) == multiset(AllowedItems(found2))
    requires DistinctNames(AllowedItems(found1))
    ensures FingerprintOf(found1, digest) == FingerprintOf(found2, digest)
  {
    var a, b := SortByName(AllowedItems(found1)), SortByName(AllowedItems(found2));
    SortByNameSorted(AllowedItems(found1));
    SortByNameSorted(AllowedItems(found2));
    DistinctNamesOfPermutation(AllowedItems(found1), a);
    DistinctNamesOfPermutation(AllowedItems(found1), b);
    SortedUnique(a, b);
  }

  /** Reordering a list keeps its names distinct. */
  lemma DistinctNamesOfPermutation(s: seq<FileItem>, t: seq<FileItem>)
    requires DistinctNames(s) && multiset(s) == multiset(t)
    ensures DistinctNames(t)
  {
    forall i, j | 0 <= i < j < |t|
      ensures t[i].name != t[j].name
    {
      assert t[i] in multiset(s) && t[j] in multiset(s);
      var p :| 0 <= p < |s| && s[p] == t[i];
      var q :| 0 <= q < |s| && s[q] == t[j];
      if p == q {
        assert t == t[..j] + t[j..];
        assert t[i] in multiset(t[..j]) && t[j] in multiset(t[j..]);
        assert multiset(t)[t[i]] >= 2;
        DistinctCountsOne(s, p);
        assert false;
      }
    }
  }

  /** In a list without repeated names every entry occurs once. */
  lemma {:induction false} DistinctCountsOne(s: seq<FileItem>, p: nat)
    requires DistinctNames(s) && p < |s|
    ensures multiset(s)[s[p]] == 1
  {
    var x := s[p];
    if p == 0 {
      assert s == [x] + s[1..];
      assert forall q :: 0 <= q < |s[1..]| ==> s[1..][q].name != x.name by {
        forall q | 0 <= q < |s[1..]|
          ensures s[1..][q].name != x.name
        {
          assert s[1..][q] == s[q + 1];
        }
      }
      assert x !in s[1..];
    } else {
      assert s == [s[0]] + s[1..];
      assert s[0] != x;
      DistinctCountsOne(s[1..], p - 1);
    }
  }

  /**
   * Under an injective digest the hash tells any two different sets of entries
   * apart, so an added, removed, resized or re-dated file forces a rebuild.
   */
  lemma HashDetectsChange(found1: seq<FileEntry>, found2: seq<FileEntry>, digest: seq<FileItem> -> string)
    requires forall u, v :: digest(u) == digest(v) ==> u == v
    requires multiset(AllowedItems(found1)) != multiset(AllowedItems(found2))
    ensures FingerprintOf(found1, digest).hash != FingerprintOf(found2, digest).hash
  {
  }

  /** A change of a file's mtime within the same whole second leaves the fingerprint as it was. */
  lemma {:induction false} SubsecondChangeInvisible(found: seq<FileEntry>, i: nat, mtime: real)
    requires i < |found| && Trunc(mtime) == Trunc(found[i].mtime)
    ensures AllowedItems(found[i := found[i].(mtime := mtime)]) == AllowedItems(found)
  {
    var found' := found[i := found[i].(mtime := mtime)];
    if i < |found| - 1 {
      assert found'[..|found'| - 1] == found[..|found| - 1][i := found[i].(mtime := mtime)];
      SubsecondChangeInvisible(found[..|found| - 1], i, mtime);
    } else {
      assert found'[..|found'| - 1] == found[..|found| - 1];
    }
  }
}
