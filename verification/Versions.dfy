/** Product versions and the choice of the release to publish
    (internal/publication/source.go). */
module Versions {
  import opened Basics
  import opened Decimals
  import opened Texts

  const MAX_UINT32 := 0xFFFF_FFFF

  /** The four numbers of a product version. */
  type Key = k: seq<nat> | |k| == 4 witness [0, 0, 0, 0]

  // ---- Reading a version ---------------------------------------------------

  /** A group of the version pattern: three numbers without leading zeros, then
      exactly two digits. */
  predicate IsGroup(part: string, index: nat) {
    if index < 3 then Canonical(part) else |part| == 2 && AllDigits(part)
  }

  predicate MatchesPattern(version: string) {
    && version != [] && version[0] == 'v'
    && var parts := Split('.', version[1..]);
       |parts| == 4 && forall i | 0 <= i < 4 :: IsGroup(parts[i], i)
  }

  predicate IsProductVersion(version: string) {
    && MatchesPattern(version)
    && var parts := Split('.', version[1..]);
       forall i | 0 <= i < 4 :: Value(parts[i]) <= MAX_UINT32
  }

  function KeyOf(version: string): Key
    requires IsProductVersion(version)
  {
    var parts := Split('.', version[1..]);
    [Value(parts[0]), Value(parts[1]), Value(parts[2]), Value(parts[3])]
  }

  /** productVersionKey: fills the key group by group. */
  method ProductVersionKey(version: string) returns (key: Option<Key>)
    ensures key.Some? <==> IsProductVersion(version)
    ensures key.Some? ==> key.value == KeyOf(version)
  {
    if !MatchesPattern(version) { return None; }
    var parts := Split('.', version[1..]);
    var filled: seq<nat> := [];
    for i := 0 to 4
      invariant |filled| == i
      invariant forall j | 0 <= j < i :: filled[j] == Value(parts[j]) <= MAX_UINT32
    {
      var value := Value(parts[i]);
      if value > MAX_UINT32 { return None; }
      filled := filled + [value];
    }
    return Some(filled);
  }

  /** A group is determined by its number. */
  lemma GroupIsDetermined(a: string, b: string, index: nat)
    requires IsGroup(a, index) && IsGroup(b, index) && Value(a) == Value(b)
    ensures a == b
  {
    if index < 3 {
      ShowOfValue(a);
      ShowOfValue(b);
    } else {
      TwoDigits(a);
      TwoDigits(b);
    }
  }

  lemma TwoDigits(s: string)
    requires |s| == 2 && AllDigits(s)
    ensures Value(s) == DigitValue(s[0]) * 10 + DigitValue(s[1])
    ensures s == [DigitChar(Value(s) / 10), DigitChar(Value(s) % 10)]
  {
    assert s[..1][..0] == [];
    assert Value(s[..1]) == DigitValue(s[0]);
  }

  /** Different accepted names have different keys. */
  lemma KeyIsInjective(v: string, w: string)
    requires IsProductVersion(v) && IsProductVersion(w) && KeyOf(v) == KeyOf(w)
    ensures v == w
  {
    hide Split, Value;
    var a, b := Split('.', v[1..]), Split('.', w[1..]);
    forall i | 0 <= i < 4
      ensures a[i] == b[i]
    {
      assert KeyOf(v)[i] == KeyOf(w)[i];
      GroupIsDetermined(a[i], b[i], i);
    }
    assert a == b;
    JoinOfSplit('.', v[1..]);
    JoinOfSplit('.', w[1..]);
    assert v == ['v'] + v[1..] && w == ['v'] + w[1..];
  }

  // ---- Ordering ----------------------------------------------------------------

  /** Lexicographic order from group `i` on. */
  predicate LessFrom(a: Key, b: Key, i: nat)
    requires i <= 4
    decreases 4 - i
  {
    i < 4 && (a[i] < b[i] || (a[i] == b[i] && LessFrom(a, b, i + 1)))
  }

  predicate Less(a: Key, b: Key) { LessFrom(a, b, 0) }

  /** `a` has the smaller number at the first group in which they differ. */
  ghost predicate Below(a: Key, b: Key) { exists k :: FirstSmaller(a, b, k) }

  predicate FirstSmaller(a: Key, b: Key, k: int) {
    0 <= k < 4 && a[k] < b[k] && forall j | 0 <= j < k :: a[j] == b[j]
  }

  /** versionKeyLess: the first difference decides. */
  method VersionKeyLess(a: Key, b: Key) returns (less: bool)
    ensures less == Less(a, b)
    ensures less <==> Below(a, b)
  {
    LessIsBelow(a, b);
    for i := 0 to 4
      invariant Less(a, b) == LessFrom(a, b, i)
    {
      if a[i] != b[i] { return a[i] < b[i]; }
    }
    return false;
  }

  lemma {:induction false} LessFromIsBelow(a: Key, b: Key, i: nat)
    requires i <= 4 && forall j | 0 <= j < i :: a[j] == b[j]
    ensures LessFrom(a, b, i) <==> Below(a, b)
    decreases 4 - i
  {
    if i < 4 {
      if a[i] == b[i] {
        LessFromIsBelow(a, b, i + 1);
      } else if a[i] < b[i] {
        assert FirstSmaller(a, b, i);
      } else {
        forall k | 0 <= k < 4
          ensures !FirstSmaller(a, b, k)
        {
          if k < i { assert a[k] == b[k]; }
        }
      }
    }
  }

  /** The order of keys is the order of their numbers, first group first. */
  lemma LessIsBelow(a: Key, b: Key)
    ensures Less(a, b) <==> Below(a, b)
  {
    LessFromIsBelow(a, b, 0);
  }

  lemma {:induction false} LessFromIsStrict(a: Key, b: Key, c: Key, i: nat)
    requires i <= 4
    ensures !LessFrom(a, a, i)
    ensures LessFrom(a, b, i) && LessFrom(b, c, i) ==> LessFrom(a, c, i)
    ensures LessFrom(a, b, i) || LessFrom(b, a, i) || forall j | i <= j < 4 :: a[j] == b[j]
    decreases 4 - i
  {
    if i < 4 { LessFromIsStrict(a, b, c, i + 1); }
  }

  /** versionKeyLess is a strict total order on keys. */
  lemma LessIsStrictTotal(a: Key, b: Key, c: Key)
    ensures !Less(a, a)
    ensures Less(a, b) && Less(b, c) ==> Less(a, c)
    ensures Less(a, b) || Less(b, a) || a == b
  {
    LessFromIsStrict(a, b, c, 0);
  }

  // ---- Versions as numbers -----------------------------------------------------

  function TwoDigitText(d: nat): string
    requires d < 100
  {
    [DigitChar(d / 10), DigitChar(d % 10)]
  }

  /** A version spelled from its four numbers, in order. */
  function VersionText(k: Key): string
    requires k[3] < 100
  {
    "v" + Join('.', GroupTexts(k))
  }

  function GroupTexts(k: Key): (parts: seq<string>)
    requires k[3] < 100
    ensures |parts| == 4
  {
    [Show(k[0]), Show(k[1]), Show(k[2]), TwoDigitText(k[3])]
  }

  lemma GroupsAreRead(k: Key)
    requires k[3] < 100
    ensures var parts := GroupTexts(k);
      && Split('.', VersionText(k)[1..]) == parts
      && forall i | 0 <= i < 4 :: IsGroup(parts[i], i) && AllDigits(parts[i]) && Value(parts[i]) == k[i]
  {
    hide Split, Join, Show, Value;
    var parts := GroupTexts(k);
    forall i | 0 <= i < 4
      ensures IsGroup(parts[i], i) && AllDigits(parts[i]) && Value(parts[i]) == k[i] && '.' !in parts[i]
    {
      if i < 3 {
        ShowIsCanonical(k[i]);
        ValueOfShow(k[i]);
      } else {
        TwoDigits(parts[3]);
      }
    }
    SplitOfJoin('.', parts);
    assert VersionText(k)[1..] == Join('.', parts);
  }

  /** A version spelled from four numbers has the pattern, has a key exactly when
      they fit 32 bits, and its key is those numbers in that order. */
  lemma KeyOfText(k: Key)
    requires k[3] < 100
    ensures MatchesPattern(VersionText(k))
    ensures IsProductVersion(VersionText(k)) <==> forall i | 0 <= i < 4 :: k[i] <= MAX_UINT32
    ensures IsProductVersion(VersionText(k)) ==> KeyOf(VersionText(k)) == k
  {
    hide Split, Join, Show, Value;
    GroupsAreRead(k);
    if IsProductVersion(VersionText(k)) {
      forall i | 0 <= i < 4
        ensures KeyOf(VersionText(k))[i] == k[i] <= MAX_UINT32
      {
        assert Value(Split('.', VersionText(k)[1..])[i]) <= MAX_UINT32;
      }
    }
  }

  /** And every product version is spelled from the numbers of its key. */
  lemma TextOfKey(v: string)
    requires IsProductVersion(v)
    ensures KeyOf(v)[3] < 100 && VersionText(KeyOf(v)) == v
  {
    hide Split, Join, Show, Value;
    var parts, k := Split('.', v[1..]), KeyOf(v);
    TwoDigits(parts[3]);
    forall i | 0 <= i < 3
      ensures Show(k[i]) == parts[i]
    {
      assert IsGroup(parts[i], i);
      ShowOfValue(parts[i]);
    }
    assert GroupTexts(k) == parts;
    JoinOfSplit('.', v[1..]);
    assert v == "v" + v[1..];
  }

  /** The version whose first group is `n` and whose other groups are zero. */
  function VersionOf(n: nat): string { VersionText([n, 0, 0, 0]) }

  /** Such a version has the pattern, and a key exactly when `n` fits 32 bits. */
  lemma LargeGroups(n: nat)
    ensures MatchesPattern(VersionOf(n))
    ensures IsProductVersion(VersionOf(n)) <==> n <= MAX_UINT32
  {
    hide MatchesPattern, IsProductVersion, VersionText;
    var k: Key := [n, 0, 0, 0];
    KeyOfText(k);
    assert forall i | 1 <= i < 4 :: k[i] == 0;
    assert k[0] == n;
  }

  lemma VersionLength(n: nat)
    ensures |VersionOf(n)| == |Show(n)| + 8
  {
    var parts := GroupTexts([n, 0, 0, 0]);
    assert |parts[1]| == 1 && |parts[2]| == 1 && |parts[3]| == 2;
    var a := parts[1..];
    var b := a[1..];
    var c := b[1..];
    assert |Join('.', c)| == 2;
    assert |Join('.', b)| == 4;
    assert |Join('.', a)| == 6;
  }

  // ---- Choosing the release -------------------------------------------------------

  datatype Entry = Entry(name: string, isRegular: bool, isDir: bool, isSymlink: bool)

  datatype Candidate = Candidate(version: string, key: Key)

  predicate IsReadme(e: Entry) { e.name == "README.md" && e.isRegular }

  predicate IsRelease(e: Entry) { e.isDir && !e.isSymlink && IsProductVersion(e.name) }

  /** Every entry is the note or a release directory, and there is a release. */
  predicate Selectable(entries: seq<Entry>) {
    && (forall i | 0 <= i < |entries| :: IsReadme(entries[i]) || IsRelease(entries[i]))
    && (exists i | 0 <= i < |entries| :: !IsReadme(entries[i]))
  }

  /** `v` is the highest release of the directory. */
  ghost predicate IsHighest(entries: seq<Entry>, v: string) {
    && (exists i :: 0 <= i < |entries| && !IsReadme(entries[i]) && entries[i].name == v)
    && IsProductVersion(v)
    && forall i | 0 <= i < |entries| && !IsReadme(entries[i]) ::
         IsProductVersion(entries[i].name) && (entries[i].name == v || Below(KeyOf(entries[i].name), KeyOf(v)))
  }

  predicate Sorted(cs: seq<Candidate>) {
    forall i, j | 0 <= i < j < |cs| :: !Less(cs[j].key, cs[i].key)
  }

  /** One insertion of the sort. */
  function Insert(cs: seq<Candidate>, c: Candidate): (r: seq<Candidate>)
    ensures multiset(r) == multiset(cs) + multiset{c}
  {
    if cs == [] then [c]
    else if Less(c.key, cs[0].key) then [c] + cs
    else
      assert cs == [cs[0]] + cs[1..];
      [cs[0]] + Insert(cs[1..], c)
  }

  lemma SortedCons(c: Candidate, t: seq<Candidate>)
    requires Sorted(t) && forall j | 0 <= j < |t| :: !Less(t[j].key, c.key)
    ensures Sorted([c] + t)
  {
    hide Less;
  }

  lemma InsertMembers(cs: seq<Candidate>, c: Candidate, j: nat)
    requires j < |Insert(cs, c)|
    ensures Insert(cs, c)[j] == c || exists k :: 0 <= k < |cs| && cs[k] == Insert(cs, c)[j]
  {
    hide Less;
    assert Insert(cs, c)[j] in multiset(cs) + multiset{c};
  }

  lemma {:induction false} InsertKeepsSorted(cs: seq<Candidate>, c: Candidate)
    requires Sorted(cs)
    ensures Sorted(Insert(cs, c))
  {
    hide Less;
    if cs == [] {
    } else if Less(c.key, cs[0].key) {
      forall j | 0 <= j < |cs|
        ensures !Less(cs[j].key, c.key)
      {
        LessIsStrictTotal(cs[j].key, c.key, cs[0].key);
        LessIsStrictTotal(cs[0].key, cs[0].key, cs[0].key);
      }
      SortedCons(c, cs);
    } else {
      var t := Insert(cs[1..], c);
      InsertKeepsSorted(cs[1..], c);
      forall j | 0 <= j < |t|
        ensures !Less(t[j].key, cs[0].key)
      {
        InsertMembers(cs[1..], c, j);
      }
      SortedCons(cs[0], t);
    }
  }

  /** The selection loop of DiscoverSource: collect, sort, take the last. */
  method SelectRelease(entries: seq<Entry>) returns (version: Option<string>)
    ensures version.Some? <==> Selectable(entries)
    ensures version.Some? ==> IsHighest(entries, version.value)
  {
    hide Less, Below, KeyOf, IsProductVersion;
    var candidates: seq<Candidate> := [];
    for i := 0 to |entries|
      invariant forall j | 0 <= j < i :: IsReadme(entries[j]) || IsRelease(entries[j])
      invariant forall c | c in candidates :: IsProductVersion(c.version) && c.key == KeyOf(c.version)
      invariant forall c | c in candidates ::
        exists j :: 0 <= j < i && !IsReadme(entries[j]) && entries[j].name == c.version
      invariant forall j | 0 <= j < i && !IsReadme(entries[j]) ::
        IsProductVersion(entries[j].name) && Candidate(entries[j].name, KeyOf(entries[j].name)) in candidates
    {
      var e := entries[i];
      if IsReadme(e) { continue; }
      if !e.isDir || e.isSymlink { return None; }
      var key := ProductVersionKey(e.name);
      if key.None? { return None; }
      candidates := candidates + [Candidate(e.name, key.value)];
    }
    if |candidates| == 0 { return None; }
    var sorted := SortCandidates(candidates);
    var last := sorted[|sorted| - 1];
    assert last in multiset(sorted);
    forall j | 0 <= j < |entries| && !IsReadme(entries[j])
      ensures entries[j].name == last.version || Below(KeyOf(entries[j].name), KeyOf(last.version))
    {
      var c := Candidate(entries[j].name, KeyOf(entries[j].name));
      assert c in multiset(sorted);
      var k :| 0 <= k < |sorted| && sorted[k] == c;
      LessIsStrictTotal(c.key, last.key, c.key);
      LessIsBelow(c.key, last.key);
      if c.key == last.key { KeyIsInjective(c.version, last.version); }
    }
    return Some(last.version);
  }

  method SortCandidates(cs: seq<Candidate>) returns (sorted: seq<Candidate>)
    ensures Sorted(sorted) && multiset(sorted) == multiset(cs) && |sorted| == |cs|
  {
    sorted := [];
    for i := 0 to |cs|
      invariant Sorted(sorted) && multiset(sorted) == multiset(cs[..i])
    {
      InsertKeepsSorted(sorted, cs[i]);
      assert cs[..i + 1] == cs[..i] + [cs[i]];
      sorted := Insert(sorted, cs[i]);
    }
    assert cs[..|cs|] == cs;
    assert |multiset(sorted)| == |multiset(cs)|;
  }

  /** The highest release does not depend on the order of the directory, nor on
      how the sort breaks ties. */
  lemma HighestIsUnique(entries: seq<Entry>, shuffled: seq<Entry>, v: string, w: string)
    requires multiset(shuffled) == multiset(entries)
    requires IsHighest(entries, v) && IsHighest(shuffled, w)
    ensures v == w
  {
    hide Less, Below, KeyOf, IsProductVersion;
    var i :| 0 <= i < |entries| && !IsReadme(entries[i]) && entries[i].name == v;
    var j :| 0 <= j < |shuffled| && !IsReadme(shuffled[j]) && shuffled[j].name == w;
    assert entries[i] in multiset(shuffled) && shuffled[j] in multiset(entries);
    var a, b := KeyOf(v), KeyOf(w);
    LessIsBelow(a, b);
    LessIsBelow(b, a);
    LessIsStrictTotal(a, b, a);
  }
}
