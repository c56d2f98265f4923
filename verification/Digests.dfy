/**
 Digest preimages: `source_tree_digest` and `package_digest` (artifacts/app-builder/common.py)
 and the worker's `source_tree_digest` after the record sort of `audit_workspace`
 (artifacts/cloud-agent/cloud_agent.py).

 SHA-256 is not modelled: the results are the preimages, and what decodes from them.
 */
module Digests {
  import opened ByteStrings
  import opened Outcomes

  /** A file: its UTF-8 path, the bytes of its SHA-256 digest, and its size. */
  datatype Record = Record(path: Bytes, sha: Bytes, size: nat)

  datatype Error = Overflow

  const SOURCE_TAG: Bytes :=
    [86, 73, 66, 65, 80, 80, 45, 67, 79, 68, 69, 65, 71, 69, 78, 84, 45, 83, 79, 85, 82, 67, 69, 0]
  const PACKAGE_TAG: Bytes := [86, 73, 66, 65, 80, 80, 45, 80, 65, 67, 75, 65, 71, 69, 0,
                               101, 120, 112, 101, 114, 105, 109, 101, 110, 116, 97, 108, 45, 118, 48, 0]
  const SHA_SIZE: nat := 32

  // ---------------------------------------------------------------- byte order of paths

  predicate Leq(a: Bytes, b: Bytes) {
    a == [] || (b != [] && (a[0] < b[0] || (a[0] == b[0] && Leq(a[1..], b[1..]))))
  }

  lemma {:induction false} LeqTotal(a: Bytes, b: Bytes)
    ensures Leq(a, b) || Leq(b, a)
    ensures Leq(a, b) && Leq(b, a) ==> a == b
  {
    if a != [] && b != [] && a[0] == b[0] {
      LeqTotal(a[1..], b[1..]);
      assert a == [a[0]] + a[1..] && b == [b[0]] + b[1..];
    }
  }

  lemma {:induction false} LeqTransitive(a: Bytes, b: Bytes, c: Bytes)
    requires Leq(a, b) && Leq(b, c)
    ensures Leq(a, c)
  {
    if a != [] && a[0] == b[0] == c[0] {
      LeqTransitive(a[1..], b[1..], c[1..]);
    }
  }

  // ---------------------------------------------------------------- the stable sort

  /** Before the first record with a larger path. */
  function Insert(r: Record, rs: seq<Record>): seq<Record> {
    if rs == [] || Leq(r.path, rs[0].path) then [r] + rs else [rs[0]] + Insert(r, rs[1..])
  }

  /** Python's `sorted` with the path as key: stable. */
  function Sort(rs: seq<Record>): seq<Record> {
    if rs == [] then [] else Insert(rs[0], Sort(rs[1..]))
  }

  predicate Sorted(rs: seq<Record>) {
    rs == [] || (Sorted(rs[1..]) && forall r <- rs[1..] :: Leq(rs[0].path, r.path))
  }

  /** The records with one path, in order. */
  function Named(rs: seq<Record>, path: Bytes): seq<Record> {
    if rs == [] then [] else (if rs[0].path == path then [rs[0]] else []) + Named(rs[1..], path)
  }

  predicate Distinct(rs: seq<Record>) {
    rs == [] || (Distinct(rs[1..]) && forall r <- rs[1..] :: r.path != rs[0].path)
  }

  lemma {:induction false} InsertMembers(r: Record, rs: seq<Record>, x: Record)
    ensures x in Insert(r, rs) <==> x == r || x in rs
  {
    if rs != [] && !Leq(r.path, rs[0].path) {
      InsertMembers(r, rs[1..], x);
      assert x in rs <==> x == rs[0] || x in rs[1..];
    }
  }

  lemma {:induction false} InsertSorted(r: Record, rs: seq<Record>)
    requires Sorted(rs)
    ensures Sorted(Insert(r, rs))
  {
    if rs == [] {
    } else if Leq(r.path, rs[0].path) {
      assert Insert(r, rs)[1..] == rs;
      forall x <- rs ensures Leq(r.path, x.path) {
        if x != rs[0] { LeqTransitive(r.path, rs[0].path, x.path); }
      }
    } else {
      InsertSorted(r, rs[1..]);
      LeqTotal(r.path, rs[0].path);
      assert Insert(r, rs)[1..] == Insert(r, rs[1..]);
      forall x <- Insert(r, rs[1..]) ensures Leq(rs[0].path, x.path) {
        InsertMembers(r, rs[1..], x);
      }
    }
  }

  lemma NamedCons(r: Record, rs: seq<Record>, path: Bytes)
    ensures Named([r] + rs, path) == (if r.path == path then [r] else []) + Named(rs, path)
  {
    assert ([r] + rs)[1..] == rs;
  }

  lemma {:induction false} InsertNamed(r: Record, rs: seq<Record>, path: Bytes)
    ensures Named(Insert(r, rs), path) == (if r.path == path then [r] else []) + Named(rs, path)
  {
    if rs == [] || Leq(r.path, rs[0].path) {
      NamedCons(r, rs, path);
    } else {
      var first, rest := rs[0], rs[1..];
      InsertNamed(r, rest, path);
      LeqTotal(r.path, first.path);
      NamedCons(first, Insert(r, rest), path);
      assert rs == [first] + rest;
      NamedCons(first, rest, path);
    }
  }

  /** Sorting orders the records and keeps those of one path in their order. */
  lemma {:induction false} SortIsStable(rs: seq<Record>, path: Bytes)
    ensures Sorted(Sort(rs)) && Named(Sort(rs), path) == Named(rs, path)
  {
    if rs != [] {
      SortIsStable(rs[1..], path);
      InsertSorted(rs[0], Sort(rs[1..]));
      InsertNamed(rs[0], Sort(rs[1..]), path);
    }
  }

  lemma {:induction false} NamedMembers(rs: seq<Record>, path: Bytes, r: Record)
    ensures r in Named(rs, path) <==> r in rs && r.path == path
  {
    if rs != [] {
      NamedMembers(rs[1..], path, r);
      assert r in rs <==> r == rs[0] || r in rs[1..];
    }
  }

  lemma {:induction false} NamedDistinct(rs: seq<Record>, path: Bytes)
    requires Distinct(rs)
    ensures |Named(rs, path)| <= 1
  {
    if rs != [] {
      NamedDistinct(rs[1..], path);
      if rs[0].path == path && Named(rs[1..], path) != [] {
        NamedMembers(rs[1..], path, Named(rs[1..], path)[0]);
      }
    }
  }

  ghost predicate SameNamed(a: seq<Record>, b: seq<Record>) {
    forall path :: Named(a, path) == Named(b, path)
  }

  lemma SmallestFirst(s: seq<Record>, t: seq<Record>)
    requires s != [] && Sorted(t) && SameNamed(s, t)
    ensures t != [] && Leq(t[0].path, s[0].path)
  {
    NamedMembers(s, s[0].path, s[0]);
    NamedMembers(t, s[0].path, s[0]);
    LeqTotal(s[0].path, s[0].path);
  }

  /** A sorted list is determined by its records of each path. */
  lemma {:induction false} SortedIsDetermined(s: seq<Record>, t: seq<Record>)
    requires Sorted(s) && Sorted(t) && SameNamed(s, t)
    ensures s == t
  {
    if s == [] && t == [] {
    } else if s == [] {
      SmallestFirst(t, s);
    } else {
      SmallestFirst(s, t);
      SmallestFirst(t, s);
      LeqTotal(s[0].path, t[0].path);
      assert Named(s, s[0].path)[0] == s[0] && Named(t, s[0].path)[0] == t[0];
      forall path ensures Named(s[1..], path) == Named(t[1..], path) {
        assert Named(s, path) == Named(t, path);
        if path == s[0].path {
          assert Named(s[1..], path) == Named(s, path)[1..];
          assert Named(t[1..], path) == Named(t, path)[1..];
        } else {
          assert Named(s, path) == Named(s[1..], path);
          assert Named(t, path) == Named(t[1..], path);
        }
      }
      SortedIsDetermined(s[1..], t[1..]);
      assert s == [s[0]] + s[1..] && t == [t[0]] + t[1..];
    }
  }

  lemma SortNamed(rs: seq<Record>)
    ensures Sorted(Sort(rs)) && SameNamed(Sort(rs), rs)
  {
    SortIsStable(rs, []);
    forall path ensures Named(Sort(rs), path) == Named(rs, path) {
      SortIsStable(rs, path);
    }
  }

  /** Two lists sort alike exactly when their records of each path are the same in the same order. */
  lemma SortExact(a: seq<Record>, b: seq<Record>)
    ensures Sort(a) == Sort(b) <==> SameNamed(a, b)
  {
    SortNamed(a);
    SortNamed(b);
    if SameNamed(a, b) {
      SortedIsDetermined(Sort(a), Sort(b));
    }
  }

  lemma SameRecordsSameNamed(a: seq<Record>, b: seq<Record>, path: Bytes)
    requires Distinct(a) && Distinct(b) && forall r :: r in a <==> r in b
    ensures Named(a, path) == Named(b, path)
  {
    var x, y := Named(a, path), Named(b, path);
    NamedDistinct(a, path);
    NamedDistinct(b, path);
    if x != [] {
      NamedMembers(a, path, x[0]);
      NamedMembers(b, path, x[0]);
    }
    if y != [] {
      NamedMembers(a, path, y[0]);
      NamedMembers(b, path, y[0]);
    }
  }

  /** With distinct names that means: the same records, in any order. */
  lemma DistinctExact(a: seq<Record>, b: seq<Record>)
    requires Distinct(a) && Distinct(b)
    ensures SameNamed(a, b) <==> forall r :: r in a <==> r in b
  {
    if SameNamed(a, b) {
      forall r ensures r in a <==> r in b {
        NamedMembers(a, r.path, r);
        NamedMembers(b, r.path, r);
      }
    }
    if forall r :: r in a <==> r in b {
      forall path ensures Named(a, path) == Named(b, path) {
        SameRecordsSameNamed(a, b, path);
      }
    }
  }

  /** Sorting leaves exactly the sorted lists alone. */
  lemma SortFixes(rs: seq<Record>)
    ensures Sort(rs) == rs <==> Sorted(rs)
  {
    SortNamed(rs);
    if Sorted(rs) {
      SortedIsDetermined(Sort(rs), rs);
    }
  }

  // ---------------------------------------------------------------- the source tree

  const WIDE: nat := Pow256(8)

  predicate NulFree(path: Bytes) {
    0 !in path
  }

  /** What the file checks establish of every record. */
  predicate SourceRecord(r: Record) {
    NulFree(r.path) && |r.sha| == SHA_SIZE
  }

  function Entry(r: Record): Bytes {
    r.path + [0] + r.sha + BigEndian(r.size, 8)
  }

  function Entries(rs: seq<Record>): Bytes {
    if rs == [] then [] else Entry(rs[0]) + Entries(rs[1..])
  }

  /** The worker's preimage: the records as they come. A size that does not fit eight bytes is an error. */
  function InOrder(rs: seq<Record>): Result<Bytes, Error> {
    if forall r <- rs :: r.size < WIDE then Ok(SOURCE_TAG + Entries(rs)) else Err(Overflow)
  }

  lemma {:induction false} EntriesStep(rs: seq<Record>, n: nat)
    requires n < |rs|
    ensures Entries(rs[..n + 1]) == Entries(rs[..n]) + Entry(rs[n])
  {
    if n == 0 {
      assert rs[..1][1..] == [];
    } else {
      assert rs[..n + 1][1..] == rs[1..][..n] && rs[..n][1..] == rs[1..][..n - 1];
      EntriesStep(rs[1..], n - 1);
    }
  }

  /** `digest.update` over the records in the order given. */
  method FeedRecords(records: seq<Record>) returns (preimage: Result<Bytes, Error>)
    ensures preimage == InOrder(records)
  {
    var fed := [];
    for n := 0 to |records|
      invariant fed == Entries(records[..n])
      invariant forall i | 0 <= i < n :: records[i].size < WIDE
    {
      var record := records[n];
      if record.size >= WIDE {
        assert record in records;
        return Err(Overflow);
      }
      EntriesStep(records, n);
      fed := fed + (record.path + [0] + record.sha + BigEndian(record.size, 8));
    }
    assert records[..|records|] == records;
    return Ok(SOURCE_TAG + fed);
  }

  /** The Builder's and the Verifier's preimage. */
  method SourceTreePreimage(records: seq<Record>) returns (preimage: Result<Bytes, Error>)
    ensures preimage == InOrder(Sort(records))
  {
    preimage := FeedRecords(Sort(records));
  }

  function FirstNul(b: Bytes): (k: nat)
    ensures k <= |b| && 0 !in b[..k] && (k < |b| ==> b[k] == 0)
  {
    if b == [] || b[0] == 0 then 0 else 1 + FirstNul(b[1..])
  }

  lemma {:induction false} FirstNulIs(b: Bytes, n: nat)
    requires n < |b| && 0 !in b[..n] && b[n] == 0
    ensures FirstNul(b) == n
  {
    if n > 0 {
      assert b[0] in b[..n];
      assert b[1..][..n - 1] == b[..n][1..];
      FirstNulIs(b[1..], n - 1);
    }
  }

  /** Reads one entry: a path up to its NUL, 32 bytes of digest, 8 bytes of size; and what follows. */
  function ReadEntry(b: Bytes): (r: Option<(Record, Bytes)>)
    ensures r.Some? ==> |r.value.1| < |b|
  {
    var k := FirstNul(b);
    var end := k + 1 + SHA_SIZE + 8;
    if end > |b| then None
    else Some((Record(b[..k], b[k + 1..k + 1 + SHA_SIZE], FromBigEndian(b[end - 8..end])), b[end..]))
  }

  function ReadEntries(b: Bytes): Option<seq<Record>>
    decreases |b|
  {
    if b == [] then Some([])
    else
      match ReadEntry(b)
      case None => None
      case Some((r, rest)) =>
        match ReadEntries(rest)
        case None => None
        case Some(rs) => Some([r] + rs)
  }

  lemma Parts(s: Bytes, a: Bytes, b: Bytes, c: Bytes, d: Bytes, e: Bytes)
    requires s == a + b + c + d + e
    ensures s[..|a|] == a && s[|a|..|a| + |b|] == b
    ensures s[|a| + |b|..|a| + |b| + |c|] == c
    ensures s[|a| + |b| + |c|..|a| + |b| + |c| + |d|] == d && s[|a| + |b| + |c| + |d|..] == e
  {
    var ab, abc, abcd := a + b, a + b + c, a + b + c + d;
    assert s[..|abcd|] == abcd;
    assert abcd[..|abc|] == abc && s[..|abc|] == abc;
    assert abc[..|ab|] == ab && s[..|ab|] == ab;
  }

  lemma EntryRoundTrip(r: Record, rest: Bytes)
    requires SourceRecord(r) && r.size < WIDE
    ensures ReadEntry(Entry(r) + rest) == Some((r, rest))
  {
    var b := Entry(r) + rest;
    var size := BigEndian(r.size, 8);
    NumberRoundTrip(r.size, 8);
    Parts(b, r.path, [0], r.sha, size, rest);
    assert b[|r.path|] == b[|r.path|..|r.path| + 1][0];
    FirstNulIs(b, |r.path|);
  }

  /** The entries decode to their records, so no two lists share them. */
  lemma {:induction false} EntriesDecode(rs: seq<Record>)
    requires forall r <- rs :: SourceRecord(r) && r.size < WIDE
    ensures ReadEntries(Entries(rs)) == Some(rs)
  {
    if rs != [] {
      EntryRoundTrip(rs[0], Entries(rs[1..]));
      EntriesDecode(rs[1..]);
      assert rs == [rs[0]] + rs[1..];
    }
  }

  /** The unsorted preimage determines the list. */
  lemma InOrderExact(a: seq<Record>, b: seq<Record>)
    requires forall r <- a + b :: SourceRecord(r)
    requires InOrder(a).Ok? && InOrder(b).Ok?
    ensures InOrder(a) == InOrder(b) <==> a == b
  {
    forall r <- a ensures SourceRecord(r) { assert r in a + b; }
    forall r <- b ensures SourceRecord(r) { assert r in a + b; }
    if InOrder(a) == InOrder(b) {
      assert Entries(a) == InOrder(a).value[|SOURCE_TAG|..] == InOrder(b).value[|SOURCE_TAG|..] == Entries(b);
      EntriesDecode(a);
      EntriesDecode(b);
    }
  }

  lemma {:induction false} SortMembers(rs: seq<Record>, r: Record)
    ensures r in Sort(rs) <==> r in rs
  {
    if rs != [] {
      InsertMembers(rs[0], Sort(rs[1..]), r);
      SortMembers(rs[1..], r);
      assert r in rs <==> r == rs[0] || r in rs[1..];
    }
  }

  lemma SortAccepted(rs: seq<Record>)
    ensures InOrder(Sort(rs)).Ok? <==> InOrder(rs).Ok?
    ensures forall r :: r in Sort(rs) <==> r in rs
  {
    forall r ensures r in Sort(rs) <==> r in rs {
      SortMembers(rs, r);
    }
  }

  /** Two trees have one sorted preimage exactly when they agree path by path. */
  lemma SourceTreeExact(a: seq<Record>, b: seq<Record>)
    requires forall r <- a + b :: SourceRecord(r)
    requires InOrder(a).Ok? && InOrder(b).Ok?
    ensures InOrder(Sort(a)) == InOrder(Sort(b)) <==> SameNamed(a, b)
    ensures Distinct(a) && Distinct(b) ==> (InOrder(Sort(a)) == InOrder(Sort(b)) <==> forall r :: r in a <==> r in b)
  {
    SortAccepted(a);
    SortAccepted(b);
    forall r <- Sort(a) + Sort(b) ensures SourceRecord(r) { assert r in a + b; }
    InOrderExact(Sort(a), Sort(b));
    SortExact(a, b);
    if Distinct(a) && Distinct(b) {
      DistinctExact(a, b);
    }
  }

  /** The worker, which does not sort, agrees with the Builder exactly on sorted records; its own sort makes them so. */
  lemma WorkerAgrees(found: seq<Record>, copied: seq<Record>)
    requires forall r <- found :: SourceRecord(r)
    requires InOrder(found).Ok?
    ensures InOrder(found) == InOrder(Sort(found)) <==> Sorted(found)
    ensures Distinct(found) && Distinct(copied) && (forall r :: r in found <==> r in copied) ==>
              InOrder(Sort(found)) == InOrder(Sort(copied))
  {
    SortAccepted(found);
    forall r <- found + Sort(found) ensures SourceRecord(r) { assert r in found; }
    InOrderExact(found, Sort(found));
    SortFixes(found);
    if Distinct(found) && Distinct(copied) && forall r :: r in found <==> r in copied {
      DistinctExact(found, copied);
      SortExact(found, copied);
    }
  }

  // ---------------------------------------------------------------- the package

  datatype Derivation = Derivation(files: seq<Record>, attestation: Record)

  datatype Artifacts = Artifacts(
    component: Record, assets: seq<Record>, provenance: Record, sbom: Record, derivations: seq<Derivation>)

  function Derived(ds: seq<Derivation>): seq<Record> {
    if ds == [] then [] else ds[0].files + [ds[0].attestation] + Derived(ds[1..])
  }

  function Descriptors(a: Artifacts): seq<Record> {
    [a.component] + a.assets + [a.provenance] + [a.sbom] + Derived(a.derivations)
  }

  predicate PackageRecord(r: Record) {
    |r.path| < Pow256(2) && r.size < WIDE
  }

  function PackageEntry(r: Record): Bytes {
    BigEndian(|r.path|, 2) + r.path + r.sha + BigEndian(r.size, 8)
  }

  function PackageEntries(rs: seq<Record>): Bytes {
    if rs == [] then [] else PackageEntry(rs[0]) + PackageEntries(rs[1..])
  }

  /** A tag, the length of the manifest in eight bytes, the manifest, and the entries. */
  function Frame(tag: Bytes, manifest: Bytes, entries: Bytes): Bytes {
    tag + BigEndian(|manifest|, 8) + manifest + entries
  }

  /** `manifest` is the canonical JSON text; anything that does not fit its field is an error. */
  function Package(manifest: Bytes, rs: seq<Record>): Result<Bytes, Error> {
    if |manifest| < WIDE && forall r <- rs :: PackageRecord(r) then
      Ok(Frame(PACKAGE_TAG, manifest, PackageEntries(rs)))
    else Err(Overflow)
  }

  lemma {:induction false} PackageEntriesStep(rs: seq<Record>, n: nat)
    requires n < |rs|
    ensures PackageEntries(rs[..n + 1]) == PackageEntries(rs[..n]) + PackageEntry(rs[n])
  {
    if n == 0 {
      assert rs[..1][1..] == [];
    } else {
      assert rs[..n + 1][1..] == rs[1..][..n] && rs[..n][1..] == rs[1..][..n - 1];
      PackageEntriesStep(rs[1..], n - 1);
    }
  }

  method CollectDescriptors(a: Artifacts) returns (rs: seq<Record>)
    ensures rs == Descriptors(a)
  {
    rs := [a.component] + a.assets + [a.provenance] + [a.sbom];
    for n := 0 to |a.derivations|
      invariant rs + Derived(a.derivations[n..]) == Descriptors(a)
    {
      rs := rs + a.derivations[n].files;
      rs := rs + [a.derivations[n].attestation];
    }
  }

  method FeedDescriptors(rs: seq<Record>) returns (entries: Option<Bytes>)
    ensures entries == if forall r <- rs :: PackageRecord(r) then Some(PackageEntries(rs)) else None
  {
    var fed: Bytes := [];
    for n := 0 to |rs|
      invariant fed == PackageEntries(rs[..n])
      invariant forall i | 0 <= i < n :: PackageRecord(rs[i])
    {
      var r := rs[n];
      if |r.path| >= Pow256(2) || r.size >= WIDE {
        assert r in rs && !PackageRecord(r);
        return None;
      }
      PackageEntriesStep(rs, n);
      fed := fed + (BigEndian(|r.path|, 2) + r.path + r.sha + BigEndian(r.size, 8));
    }
    assert rs[..|rs|] == rs;
    return Some(fed);
  }

  method PackagePreimage(manifest: Bytes, a: Artifacts) returns (preimage: Result<Bytes, Error>)
    ensures preimage == Package(manifest, Sort(Descriptors(a)))
  {
    var rs := CollectDescriptors(a);
    var entries := FeedDescriptors(Sort(rs));
    if |manifest| >= WIDE || entries.None? {
      return Err(Overflow);
    }
    return Ok(Frame(PACKAGE_TAG, manifest, entries.value));
  }

  /** Reads one descriptor back by its length prefix; and what follows. */
  function ReadPackageEntry(b: Bytes): (r: Option<(Record, Bytes)>)
    ensures r.Some? ==> |r.value.1| < |b|
  {
    if |b| < 2 then None
    else
      var k := 2 + FromBigEndian(b[..2]);
      var end := k + SHA_SIZE + 8;
      if end > |b| then None
      else Some((Record(b[2..k], b[k..k + SHA_SIZE], FromBigEndian(b[k + SHA_SIZE..end])), b[end..]))
  }

  function ReadPackageEntries(b: Bytes): Option<seq<Record>>
    decreases |b|
  {
    if b == [] then Some([])
    else
      match ReadPackageEntry(b)
      case None => None
      case Some((r, rest)) =>
        match ReadPackageEntries(rest)
        case None => None
        case Some(rs) => Some([r] + rs)
  }

  lemma PackageEntryRoundTrip(r: Record, rest: Bytes)
    requires |r.sha| == SHA_SIZE && PackageRecord(r)
    ensures ReadPackageEntry(PackageEntry(r) + rest) == Some((r, rest))
  {
    var b := PackageEntry(r) + rest;
    var length, size := BigEndian(|r.path|, 2), BigEndian(r.size, 8);
    NumberRoundTrip(|r.path|, 2);
    NumberRoundTrip(r.size, 8);
    Parts(b, length, r.path, r.sha, size, rest);
  }

  lemma {:induction false} PackageEntriesDecode(rs: seq<Record>)
    requires forall r <- rs :: |r.sha| == SHA_SIZE && PackageRecord(r)
    ensures ReadPackageEntries(PackageEntries(rs)) == Some(rs)
  {
    if rs != [] {
      PackageEntryRoundTrip(rs[0], PackageEntries(rs[1..]));
      PackageEntriesDecode(rs[1..]);
      assert rs == [rs[0]] + rs[1..];
    }
  }

  function ReadFrame(tag: Bytes, b: Bytes): Option<(Bytes, Bytes)> {
    var head := |tag| + 8;
    if |b| < head || b[..|tag|] != tag then None
    else
      var end := head + FromBigEndian(b[|tag|..head]);
      if end > |b| then None else Some((b[head..end], b[end..]))
  }

  lemma FrameRoundTrip(tag: Bytes, manifest: Bytes, entries: Bytes)
    requires |manifest| < WIDE
    ensures ReadFrame(tag, Frame(tag, manifest, entries)) == Some((manifest, entries))
  {
    Parts(Frame(tag, manifest, entries), tag, BigEndian(|manifest|, 8), manifest, entries, []);
    NumberRoundTrip(|manifest|, 8);
  }

  /** The manifest text and the descriptors that a package preimage was made from. */
  function ReadPackage(b: Bytes): Option<(Bytes, seq<Record>)> {
    match ReadFrame(PACKAGE_TAG, b)
    case None => None
    case Some((manifest, entries)) =>
      match ReadPackageEntries(entries)
      case None => None
      case Some(rs) => Some((manifest, rs))
  }

  /** A package preimage decodes to its manifest and its sorted descriptors. */
  lemma PackageDecodes(manifest: Bytes, a: Artifacts)
    requires forall r <- Descriptors(a) :: |r.sha| == SHA_SIZE
    requires Package(manifest, Sort(Descriptors(a))).Ok?
    ensures ReadPackage(Package(manifest, Sort(Descriptors(a))).value) == Some((manifest, Sort(Descriptors(a))))
  {
    var rs := Sort(Descriptors(a));
    SortAccepted(Descriptors(a));
    FrameRoundTrip(PACKAGE_TAG, manifest, PackageEntries(rs));
    PackageEntriesDecode(rs);
  }

  /** Two packages share a preimage exactly when the manifest text and, path by path, the descriptors are the same. */
  lemma PackageExact(m: Bytes, a: Artifacts, n: Bytes, b: Artifacts)
    requires forall r <- Descriptors(a) + Descriptors(b) :: |r.sha| == SHA_SIZE
    requires Package(m, Sort(Descriptors(a))).Ok? && Package(n, Sort(Descriptors(b))).Ok?
    ensures Package(m, Sort(Descriptors(a))) == Package(n, Sort(Descriptors(b)))
       <==> m == n && SameNamed(Descriptors(a), Descriptors(b))
  {
    forall r <- Descriptors(a) ensures |r.sha| == SHA_SIZE { assert r in Descriptors(a) + Descriptors(b); }
    forall r <- Descriptors(b) ensures |r.sha| == SHA_SIZE { assert r in Descriptors(a) + Descriptors(b); }
    PackageDecodes(m, a);
    PackageDecodes(n, b);
    SortExact(Descriptors(a), Descriptors(b));
  }
}
