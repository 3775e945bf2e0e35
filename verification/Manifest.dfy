/** The template manifest: the byte stream whose SHA-256 is a template's identity. It does not depend
    on the order in which the dependencies are listed, and it decodes in one way only. */
module Manifest {
  import opened Facts

  type Byte = b: nat | b < 256
  type Text = seq<Byte>

  const MAX := 0x1_0000_0000_0000_0000

  // One asset: its canonical path, its size and its hexadecimal digest.
  datatype Asset = Asset(path: Text, size: nat, digest: Text)

  // A regular, read-only file inside the version root, with its identity on the file system.
  datatype File = File(size: nat, digest: Text, inode: nat)

  // Lengths and sizes fit the 64-bit words they are written in.
  predicate Fits(a: Asset) {
    |a.path| < MAX && a.size < MAX && |a.digest| < MAX
  }

  // ---- Encoding ----

  // The low n bytes of x, most significant first.
  function BigEndian(x: nat, n: nat): (r: Text)
    ensures |r| == n
    decreases n
  {
    if n == 0 then [] else BigEndian(x / 256, n - 1) + [x % 256]
  }

  function Value(b: Text): nat {
    if b == [] then 0 else Value(b[..|b|-1]) * 256 + b[|b|-1]
  }

  function Uint(x: nat): (r: Text)
    ensures |r| == 8
  {
    BigEndian(x, 8)
  }

  function Str(s: Text): Text {
    Uint(|s|) + s
  }

  function Tuple(a: Asset): Text {
    Str(a.path) + Uint(a.size) + Str(a.digest)
  }

  function Tuples(deps: seq<Asset>): Text {
    if deps == [] then [] else Tuple(deps[0]) + Tuples(deps[1..])
  }

  // The tag "template-manifest-sha256-v1" in ASCII.
  const TAG: Text := [116, 101, 109, 112, 108, 97, 116, 101, 45, 109, 97, 110, 105, 102, 101, 115, 116, 45, 115, 104, 97, 50, 53, 54, 45, 118, 49]

  function Stream(template: Asset, deps: seq<Asset>): Text {
    Str(TAG) + Str(template.path) + Str(template.digest) + Uint(template.size) + Tuples(deps)
  }

  // ---- Unique decoding ----

  function Power(n: nat): nat {
    if n == 0 then 1 else 256 * Power(n - 1)
  }

  lemma {:induction false} BigEndianValue(x: nat, n: nat)
    requires x < Power(n)
    ensures Value(BigEndian(x, n)) == x
    decreases n
  {
    if n > 0 {
      BigEndianValue(x / 256, n - 1);
      var b := BigEndian(x, n);
      assert b[..|b|-1] == BigEndian(x / 256, n - 1);
    }
  }

  lemma UintUnique(x: nat, y: nat)
    requires x < MAX && y < MAX && Uint(x) == Uint(y)
    ensures x == y
  {
    assert Power(8) == MAX;
    BigEndianValue(x, 8);
    BigEndianValue(y, 8);
  }

  // A number at the front of a stream is read back with what follows it.
  lemma UintFront(x: nat, y: nat, s: Text, t: Text)
    requires x < MAX && y < MAX && Uint(x) + s == Uint(y) + t
    ensures x == y && s == t
  {
    assert Uint(x) == (Uint(x) + s)[..8] && s == (Uint(x) + s)[8..];
    assert Uint(y) == (Uint(y) + t)[..8] && t == (Uint(y) + t)[8..];
    UintUnique(x, y);
  }

  lemma Assoc(a: Text, b: Text, c: Text)
    ensures (a + b) + c == a + (b + c)
  {
  }

  // A length-prefixed string at the front of a stream is read back with what follows it.
  lemma StrFront(a: Text, b: Text, s: Text, t: Text)
    requires |a| < MAX && |b| < MAX && Str(a) + s == Str(b) + t
    ensures a == b && s == t
  {
    hide Uint;
    Assoc(Uint(|a|), a, s);
    Assoc(Uint(|b|), b, t);
    UintFront(|a|, |b|, a + s, b + t);
    assert a == (a + s)[..|a|] && s == (a + s)[|a|..];
    assert b == (b + t)[..|b|] && t == (b + t)[|b|..];
  }

  lemma TupleSplit(a: Asset, s: Text)
    ensures Tuple(a) + s == Str(a.path) + (Uint(a.size) + (Str(a.digest) + s))
  {
    hide Uint, Str;
    Assoc(Str(a.path) + Uint(a.size), Str(a.digest), s);
    Assoc(Str(a.path), Uint(a.size), Str(a.digest) + s);
  }

  lemma TupleFront(a: Asset, b: Asset, s: Text, t: Text)
    requires Fits(a) && Fits(b) && Tuple(a) + s == Tuple(b) + t
    ensures a == b && s == t
  {
    hide Uint, Str, Tuple;
    TupleSplit(a, s);
    TupleSplit(b, t);
    StrFront(a.path, b.path, Uint(a.size) + (Str(a.digest) + s), Uint(b.size) + (Str(b.digest) + t));
    UintFront(a.size, b.size, Str(a.digest) + s, Str(b.digest) + t);
    StrFront(a.digest, b.digest, s, t);
  }

  lemma {:induction false} TuplesUnique(s: seq<Asset>, t: seq<Asset>)
    requires (forall a :: a in s ==> Fits(a)) && (forall a :: a in t ==> Fits(a)) && Tuples(s) == Tuples(t)
    ensures s == t
    decreases |s|
  {
    assert t != [] ==> |Tuple(t[0])| > 0;
    assert s != [] ==> |Tuple(s[0])| > 0;
    if s != [] && t != [] {
      TupleFront(s[0], t[0], Tuples(s[1..]), Tuples(t[1..]));
      TuplesUnique(s[1..], t[1..]);
    }
  }

  // The stream determines the template's path, digest and size, and the list of dependency tuples.
  lemma StreamUnique(a: Asset, s: seq<Asset>, b: Asset, t: seq<Asset>)
    requires Fits(a) && Fits(b) && (forall x :: x in s ==> Fits(x)) && (forall x :: x in t ==> Fits(x))
    requires Stream(a, s) == Stream(b, t)
    ensures a == b && s == t
  {
    hide Uint, Str, Tuples;
    StreamSplit(a, s);
    StreamSplit(b, t);
    hide Stream;
    var u, v := Uint(a.size) + Tuples(s), Uint(b.size) + Tuples(t);
    StrFront(TAG, TAG, Str(a.path) + (Str(a.digest) + u), Str(b.path) + (Str(b.digest) + v));
    StrFront(a.path, b.path, Str(a.digest) + u, Str(b.digest) + v);
    StrFront(a.digest, b.digest, u, v);
    UintFront(a.size, b.size, Tuples(s), Tuples(t));
    TuplesUnique(s, t);
  }

  lemma StreamSplit(a: Asset, s: seq<Asset>)
    ensures Stream(a, s) == Str(TAG) + (Str(a.path) + (Str(a.digest) + (Uint(a.size) + Tuples(s))))
  {
    hide Uint, Str, Tuples;
    var u := Uint(a.size) + Tuples(s);
    Assoc(Str(TAG) + Str(a.path) + Str(a.digest), Uint(a.size), Tuples(s));
    Assoc(Str(TAG) + Str(a.path), Str(a.digest), u);
    Assoc(Str(TAG), Str(a.path), Str(a.digest) + u);
  }

  // ---- Order ----

  // Byte-wise lexicographic order.
  predicate Less(a: Text, b: Text) {
    b != [] && (a == [] || a[0] < b[0] || (a[0] == b[0] && Less(a[1..], b[1..])))
  }

  lemma {:induction false} LessTotal(a: Text, b: Text)
    ensures Less(a, b) || Less(b, a) || a == b
    ensures !(Less(a, b) && Less(b, a)) && !Less(a, a)
    decreases |a|
  {
    if a != [] && b != [] {
      LessTotal(a[1..], b[1..]);
      assert a == [a[0]] + a[1..] && b == [b[0]] + b[1..];
    }
    if a != [] { LessTotal(a[1..], a[1..]); }
  }

  lemma {:induction false} LessTransitive(a: Text, b: Text, c: Text)
    requires Less(a, b) && Less(b, c)
    ensures Less(a, c)
    decreases |a|
  {
    if a != [] && a[0] == b[0] == c[0] { LessTransitive(a[1..], b[1..], c[1..]); }
  }

  predicate Sorted(s: seq<Asset>) {
    forall i, j :: 0 <= i < j < |s| ==> Less(s[i].path, s[j].path)
  }

  // Two strictly sorted sequences of the same assets are the same sequence.
  lemma {:induction false} SortedUnique(s: seq<Asset>, t: seq<Asset>)
    requires Sorted(s) && Sorted(t) && forall a :: a in s <==> a in t
    ensures s == t
    decreases |s|
  {
    assert t != [] ==> t[0] in s;
    if s != [] {
      assert s[0] in t && t != [];
      var i :| 0 <= i < |t| && t[i] == s[0];
      var j :| 0 <= j < |s| && s[j] == t[0];
      LessTotal(s[0].path, t[0].path);
      assert s[0] == t[0];
      forall a
        ensures a in s[1..] <==> a in t[1..]
      {
        TailMember(s, a);
        TailMember(t, a);
      }
      SortedUnique(s[1..], t[1..]);
      assert s == [s[0]] + s[1..] && t == [t[0]] + t[1..];
    }
  }

  lemma TailMember(s: seq<Asset>, a: Asset)
    requires Sorted(s) && s != []
    ensures a in s[1..] <==> a in s && a != s[0]
  {
    LessTotal(s[0].path, s[0].path);
    if a in s && a != s[0] {
      var i :| 0 <= i < |s| && s[i] == a;
      assert s[1..][i - 1] == a;
    }
    if a in s[1..] {
      var i :| 0 <= i < |s[1..]| && s[1..][i] == a;
      assert s[i + 1] == a && Less(s[0].path, s[i + 1].path);
    }
  }

  // ---- What is hashed ----

  function AssetOf(path: Text, files: map<Text, File>): Asset
    requires path in files
  {
    Asset(path, files[path].size, files[path].digest)
  }

  predicate Distinct(paths: seq<Text>) {
    forall i, j :: 0 <= i < j < |paths| ==> paths[i] != paths[j]
  }

  // Every asset is a usable file, and no path and no file is listed twice.
  predicate Accepted(paths: seq<Text>, files: map<Text, File>) {
    && (forall i :: 0 <= i < |paths| ==> paths[i] in files)
    && Distinct(paths)
    && (forall i, j :: 0 <= i < j < |paths| ==> files[paths[i]].inode != files[paths[j]].inode)
  }

  // The sorted dependency tuples of an accepted manifest.
  ghost predicate SortedDeps(d: seq<Asset>, deps: seq<Text>, files: map<Text, File>)
    requires forall i :: 0 <= i < |deps| ==> deps[i] in files
  {
    Sorted(d) && forall a :: a in d <==> exists i :: 0 <= i < |deps| && AssetOf(deps[i], files) == a
  }

  ghost predicate Hashes(template: Text, deps: seq<Text>, files: map<Text, File>, bytes: Text) {
    && Accepted([template] + deps, files) && template in files && (forall i :: 0 <= i < |deps| ==> deps[i] in files)
    && exists d :: SortedDeps(d, deps, files) && bytes == Stream(AssetOf(template, files), d)
  }

  lemma AcceptedParts(template: Text, deps: seq<Text>, files: map<Text, File>)
    requires Accepted([template] + deps, files)
    ensures template in files && forall i :: 0 <= i < |deps| ==> deps[i] in files && deps[i] != template
    ensures Distinct(deps)
  {
    var paths := [template] + deps;
    assert paths[0] == template;
    assert forall i :: 0 <= i < |deps| ==> paths[i + 1] == deps[i];
  }

  // The running hash sees what has been written to it, in order.
  class Hash {
    var written: Text

    constructor ()
      ensures written == []
    {
      written := [];
    }

    // writeManifestUint
    method WriteUint(value: nat)
      modifies this
      ensures written == old(written) + Uint(value)
    {
      var b := new Byte[8](_ => 0);
      var rest := value;
      var i := 8;
      while i > 0
        invariant 0 <= i <= 8
        invariant BigEndian(rest, i) + b[i..] == Uint(value) && written == old(written)
      {
        i := i - 1;
        b[i] := rest % 256;
        assert BigEndian(rest, i + 1) == BigEndian(rest / 256, i) + [rest % 256];
        assert b[i..] == [rest % 256] + b[i + 1..];
        Assoc(BigEndian(rest / 256, i), [rest % 256], b[i + 1..]);
        rest := rest / 256;
      }
      assert BigEndian(rest, 0) + b[0..] == b[..];
      written := written + b[..];
    }

    // writeManifestString
    method WriteString(value: Text)
      modifies this
      ensures written == old(written) + Str(value)
    {
      WriteUint(|value|);
      Assoc(old(written), Uint(|value|), value);
      written := written + value;
    }

    method WriteTuple(a: Asset)
      modifies this
      ensures written == old(written) + Tuple(a)
    {
      hide Str, Uint;
      WriteString(a.path);
      WriteUint(a.size);
      WriteString(a.digest);
      Assoc(old(written), Str(a.path), Uint(a.size));
      Assoc(old(written), Str(a.path) + Uint(a.size), Str(a.digest));
    }
  }

  // Sorting by path, one entry into its place at a time.
  method Insert(s: seq<Asset>, a: Asset) returns (r: seq<Asset>)
    requires Sorted(s) && forall b :: b in s ==> b.path != a.path
    ensures Sorted(r) && forall b :: b in r <==> b == a || b in s
  {
    var i := 0;
    while i < |s| && Less(s[i].path, a.path)
      invariant 0 <= i <= |s|
      invariant forall k :: 0 <= k < i ==> Less(s[k].path, a.path)
    {
      i := i + 1;
    }
    InsertedSorted(s, a, i);
    r := s[..i] + [a] + s[i..];
  }

  // An entry put where everything before it is less and the next is not keeps the order.
  lemma InsertedSorted(s: seq<Asset>, a: Asset, i: nat)
    requires Sorted(s) && i <= |s| && forall b :: b in s ==> b.path != a.path
    requires forall k :: 0 <= k < i ==> Less(s[k].path, a.path)
    requires i < |s| ==> !Less(s[i].path, a.path)
    ensures Sorted(s[..i] + [a] + s[i..]) && forall b :: b in s[..i] + [a] + s[i..] <==> b == a || b in s
  {
    hide Less;
    forall k | i <= k < |s|
      ensures Less(a.path, s[k].path)
    {
      assert s[i] in s;
      LessTotal(s[i].path, a.path);
      if k > i { LessTransitive(a.path, s[i].path, s[k].path); }
    }
    assert forall b :: b in s <==> b in s[..i] || b in s[i..] by { assert s == s[..i] + s[i..]; }
  }

  // The sorted entries of the listed assets, or none if one of them is refused.
  method CollectEntries(paths: seq<Text>, files: map<Text, File>) returns (r: Option<seq<Asset>>)
    ensures r.Some? <==> Accepted(paths, files)
    ensures r.Some? ==> Sorted(r.value) && forall a :: a in r.value <==> exists i :: 0 <= i < |paths| && AssetOf(paths[i], files) == a
  {
    hide Sorted, Less;
    var entries: seq<Asset> := [];
    var seen: set<Text> := {};
    var inodes: seq<nat> := [];
    SortedNone();
    for n := 0 to |paths|
      invariant Accepted(paths[..n], files)
      invariant forall i :: 0 <= i < n ==> paths[i] in files
      invariant forall p :: p in seen <==> p in paths[..n]
      invariant |inodes| == n && forall i :: 0 <= i < n ==> inodes[i] == files[paths[i]].inode
      invariant Sorted(entries)
      invariant forall a :: a in entries <==> exists i :: 0 <= i < n && AssetOf(paths[i], files) == a
    {
      var path := paths[n];
      if path !in files { return None; }
      if path in seen {
        var i :| 0 <= i < n && paths[i] == path;
        assert !Distinct(paths);
        return None;
      }
      for k := 0 to n
        invariant forall i :: 0 <= i < k ==> inodes[i] != files[path].inode
      {
        if inodes[k] == files[path].inode {
          assert files[paths[k]].inode == files[paths[n]].inode;
          return None;
        }
      }
      NextAccepted(paths, n, files);
      entries := Insert(entries, AssetOf(path, files));
      seen, inodes := seen + {path}, inodes + [files[path].inode];
    }
    assert paths[..|paths|] == paths;
    return Some(entries);
  }

  lemma SortedNone()
    ensures Sorted([])
  {
  }

  lemma NextAccepted(paths: seq<Text>, n: nat, files: map<Text, File>)
    requires n < |paths| && Accepted(paths[..n], files) && paths[n] in files && paths[n] !in paths[..n]
    requires forall i :: 0 <= i < n ==> paths[i] in files && files[paths[i]].inode != files[paths[n]].inode
    ensures Accepted(paths[..n+1], files) && paths[..n+1] == paths[..n] + [paths[n]]
  {
    assert forall i :: 0 <= i < n ==> paths[..n][i] == paths[i];
  }

  // TemplateManifestSHA256V1, up to the digest of the stream it returns.
  method ManifestStream(template: Text, deps: seq<Text>, files: map<Text, File>) returns (r: Option<Text>)
    ensures r.Some? <==>
      && (forall p :: p == template || p in deps ==> p in files)
      && (forall i :: 0 <= i < |deps| ==> deps[i] != template && files[deps[i]].inode != files[template].inode)
      && (forall i, j :: 0 <= i < j < |deps| ==> deps[i] != deps[j] && files[deps[i]].inode != files[deps[j]].inode)
    ensures r.Some? ==> Hashes(template, deps, files, r.value)
  {
    hide Sorted, Less, Stream;
    var collected := CollectEntries([template] + deps, files);
    if collected.None? { return None; }
    var entries := collected.value;
    AcceptedParts(template, deps, files);
    PathsMembers(template, deps, files, entries);
    hide Accepted;
    var h := new Hash();
    var found := FindTemplate(entries, template, files);
    WriteAll(h, found, entries, template);
    OthersAre(entries, template);
    hide Others;
    assert SortedDeps(Others(entries, template), deps, files);
    return Some(h.written);
  }

  method FindTemplate(entries: seq<Asset>, template: Text, files: map<Text, File>) returns (found: Asset)
    requires template in files && AssetOf(template, files) in entries
    requires forall a :: a in entries ==> a.path in files && a == AssetOf(a.path, files)
    ensures found == AssetOf(template, files)
  {
    var n := 0;
    while entries[n].path != template
      invariant 0 <= n < |entries| && forall k :: 0 <= k < n ==> entries[k].path != template
      decreases |entries| - n
    {
      var k :| 0 <= k < |entries| && entries[k] == AssetOf(template, files);
      n := n + 1;
    }
    found := entries[n];
    assert found in entries;
  }

  method WriteAll(h: Hash, first: Asset, entries: seq<Asset>, template: Text)
    requires h.written == [] && first.path == template
    modifies h
    ensures h.written == Stream(first, Others(entries, template))
  {
    hide Str, Uint, Tuple;
    h.WriteString(TAG);
    h.WriteString(first.path);
    h.WriteString(first.digest);
    h.WriteUint(first.size);
    assert [] + Str(TAG) == Str(TAG);
    ghost var header := Str(TAG) + Str(first.path) + Str(first.digest) + Uint(first.size);
    assert header + Tuples([]) == header;
    for n := 0 to |entries|
      invariant h.written == header + Tuples(Others(entries[..n], template))
    {
      assert entries[..n+1][..n] == entries[..n];
      if entries[n].path != template {
        TuplesAppend(Others(entries[..n], template), entries[n]);
        Assoc(header, Tuples(Others(entries[..n], template)), Tuple(entries[n]));
        h.WriteTuple(entries[n]);
      } else {
        assert Others(entries[..n], template) + [] == Others(entries[..n], template);
      }
    }
    assert entries[..|entries|] == entries;
  }

  lemma {:induction false} TuplesAppend(s: seq<Asset>, a: Asset)
    ensures Tuples(s + [a]) == Tuples(s) + Tuple(a)
    decreases |s|
  {
    hide Tuple;
    if s == [] {
      assert [a][1..] == [] && Tuple(a) + [] == Tuple(a) && s + [a] == [a];
    } else {
      TuplesAppend(s[1..], a);
      assert (s + [a])[1..] == s[1..] + [a];
      Assoc(Tuple(s[0]), Tuples(s[1..]), Tuple(a));
    }
  }

  // The entries but the template's.
  ghost function Others(entries: seq<Asset>, template: Text): seq<Asset> {
    if entries == [] then []
    else Others(entries[..|entries|-1], template) + if entries[|entries|-1].path == template then [] else [entries[|entries|-1]]
  }

  lemma {:induction false} OthersAre(entries: seq<Asset>, template: Text)
    requires Sorted(entries)
    ensures Sorted(Others(entries, template))
    ensures forall a :: a in Others(entries, template) <==> a in entries && a.path != template
    decreases |entries|
  {
    if entries != [] {
      hide Less;
      var front, last := entries[..|entries|-1], entries[|entries|-1];
      OthersAre(front, template);
      var rest := Others(front, template);
      assert forall a :: a in entries <==> a in front || a == last by { assert entries == front + [last]; }
      forall i | 0 <= i < |rest|
        ensures Less(rest[i].path, last.path)
      {
        assert rest[i] in front;
        var k :| 0 <= k < |front| && front[k] == rest[i];
        assert entries[k] == rest[i];
      }
      assert Sorted(rest + [last]);
    }
  }

  lemma PathsMembers(template: Text, deps: seq<Text>, files: map<Text, File>, entries: seq<Asset>)
    requires Accepted([template] + deps, files) && template in files && forall i :: 0 <= i < |deps| ==> deps[i] in files && deps[i] != template
    requires var paths := [template] + deps; forall a :: a in entries <==> exists i :: 0 <= i < |paths| && AssetOf(paths[i], files) == a
    ensures AssetOf(template, files) in entries
    ensures forall a :: a in entries ==> a.path in files && a == AssetOf(a.path, files)
    ensures forall a :: a in entries && a.path != template <==> exists i :: 0 <= i < |deps| && AssetOf(deps[i], files) == a
  {
    var paths := [template] + deps;
    assert paths[0] == template;
    forall a
      ensures a in entries && a.path != template <==> exists i :: 0 <= i < |deps| && AssetOf(deps[i], files) == a
    {
      if a in entries && a.path != template {
        var i :| 0 <= i < |paths| && AssetOf(paths[i], files) == a;
        assert deps[i - 1] == paths[i];
      }
      if exists i :: 0 <= i < |deps| && AssetOf(deps[i], files) == a {
        var i :| 0 <= i < |deps| && AssetOf(deps[i], files) == a;
        assert paths[i + 1] == deps[i];
      }
    }
  }

  // ---- The two promises ----

  lemma {:induction false} DistinctCounts(s: seq<Text>)
    ensures Distinct(s) <==> forall x :: x in s ==> multiset(s)[x] == 1
    decreases |s|
  {
    if s != [] {
      var front, last := s[..|s|-1], s[|s|-1];
      assert s == front + [last];
      DistinctCounts(front);
      if Distinct(s) {
        forall x | x in s
          ensures multiset(s)[x] == 1
        {
          if x == last { assert last !in front; }
        }
      }
      if forall x :: x in s ==> multiset(s)[x] == 1 {
        assert last in s;
        forall x | x in front
          ensures multiset(front)[x] == 1 && x != last
        {
          assert x in s;
        }
      }
    }
  }

  // Acceptance does not depend on the order of the list.
  lemma AcceptedInAnyOrder(s: seq<Text>, t: seq<Text>, files: map<Text, File>)
    requires multiset(s) == multiset(t) && Accepted(s, files)
    ensures Accepted(t, files)
  {
    DistinctCounts(s);
    DistinctCounts(t);
    assert forall x :: x in s <==> x in t by {
      forall x ensures x in s <==> x in t { assert x in multiset(s) <==> x in multiset(t); }
    }
    assert forall i :: 0 <= i < |t| ==> t[i] in s;
    forall i, j | 0 <= i < j < |t|
      ensures files[t[i]].inode != files[t[j]].inode
    {
      assert t[i] in s && t[j] in s;
      var k :| 0 <= k < |s| && s[k] == t[i];
      var l :| 0 <= l < |s| && s[l] == t[j];
    }
  }

  // Any reordering of the dependencies hashes the same bytes.
  lemma OrderInsensitive(template: Text, s: seq<Text>, t: seq<Text>, files: map<Text, File>, b: Text, c: Text)
    requires multiset(s) == multiset(t) && Hashes(template, s, files, b) && Hashes(template, t, files, c)
    ensures b == c
  {
    var d :| SortedDeps(d, s, files) && b == Stream(AssetOf(template, files), d);
    var e :| SortedDeps(e, t, files) && c == Stream(AssetOf(template, files), e);
    assert forall x :: x in s <==> x in t by {
      forall x ensures x in s <==> x in t { assert x in multiset(s) <==> x in multiset(t); }
    }
    hide Stream;
    SameMembers(d, e, s, t, files);
    SortedUnique(d, e);
  }

  lemma SameMembers(d: seq<Asset>, e: seq<Asset>, s: seq<Text>, t: seq<Text>, files: map<Text, File>)
    requires (forall i :: 0 <= i < |s| ==> s[i] in files) && (forall i :: 0 <= i < |t| ==> t[i] in files)
    requires SortedDeps(d, s, files) && SortedDeps(e, t, files) && forall x :: x in s <==> x in t
    ensures forall a :: a in d <==> a in e
  {
    forall a
      ensures a in d ==> a in e
      ensures a in e ==> a in d
    {
      if a in d {
        var i :| 0 <= i < |s| && AssetOf(s[i], files) == a;
        assert s[i] in t;
        var j :| 0 <= j < |t| && t[j] == s[i];
        assert AssetOf(t[j], files) == a;
      }
      if a in e {
        var j :| 0 <= j < |t| && AssetOf(t[j], files) == a;
        assert t[j] in s;
        var i :| 0 <= i < |s| && s[i] == t[j];
        assert AssetOf(s[i], files) == a;
      }
    }
  }

  ghost predicate AllFit(paths: seq<Text>, files: map<Text, File>) {
    forall i :: 0 <= i < |paths| && paths[i] in files ==> Fits(AssetOf(paths[i], files))
  }

  // Two accepted manifests, on whatever machines, that hash the same bytes have the same template path, size and
  // digest, and the same dependency tuples.
  lemma SameBytesSameManifest(x: Text, s: seq<Text>, f: map<Text, File>, y: Text, t: seq<Text>, g: map<Text, File>, bytes: Text)
    requires Hashes(x, s, f, bytes) && Hashes(y, t, g, bytes) && AllFit([x] + s, f) && AllFit([y] + t, g)
    ensures x in f && y in g && AssetOf(x, f) == AssetOf(y, g)
    ensures forall i :: 0 <= i < |s| ==> s[i] in f && exists j :: 0 <= j < |t| && t[j] in g && AssetOf(t[j], g) == AssetOf(s[i], f)
  {
    var d :| SortedDeps(d, s, f) && bytes == Stream(AssetOf(x, f), d);
    var e :| SortedDeps(e, t, g) && bytes == Stream(AssetOf(y, g), e);
    DepsFit(x, s, f, d);
    DepsFit(y, t, g, e);
    hide Stream, Sorted, Fits, AllFit;
    StreamUnique(AssetOf(x, f), d, AssetOf(y, g), e);
    forall i | 0 <= i < |s|
      ensures exists j :: 0 <= j < |t| && t[j] in g && AssetOf(t[j], g) == AssetOf(s[i], f)
    {
      DepFound(d, s, f, t, g, i);
    }
  }

  lemma DepFound(d: seq<Asset>, s: seq<Text>, f: map<Text, File>, t: seq<Text>, g: map<Text, File>, i: nat)
    requires (forall k :: 0 <= k < |s| ==> s[k] in f) && (forall k :: 0 <= k < |t| ==> t[k] in g)
    requires SortedDeps(d, s, f) && SortedDeps(d, t, g) && i < |s|
    ensures exists j :: 0 <= j < |t| && t[j] in g && AssetOf(t[j], g) == AssetOf(s[i], f)
  {
    assert AssetOf(s[i], f) in d;
    var j :| 0 <= j < |t| && AssetOf(t[j], g) == AssetOf(s[i], f);
    assert t[j] in g;
  }

  lemma DepsFit(x: Text, s: seq<Text>, f: map<Text, File>, d: seq<Asset>)
    requires AllFit([x] + s, f) && x in f && (forall i :: 0 <= i < |s| ==> s[i] in f) && SortedDeps(d, s, f)
    ensures Fits(AssetOf(x, f)) && forall a :: a in d ==> Fits(a)
  {
    var paths := [x] + s;
    assert paths[0] == x;
    forall a | a in d
      ensures Fits(a)
    {
      var i :| 0 <= i < |s| && AssetOf(s[i], f) == a;
      assert paths[i + 1] == s[i];
    }
  }
}
