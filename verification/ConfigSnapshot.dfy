/**
 The non-secret projection of a node's configuration: the values below an allow-list of
 roots, with everything at a secret-shaped key replaced by a digest.
 */
module ConfigSnapshot {
  import opened Wrappers
  import opened Text

  datatype Json =
    | Null
    | Bool(b: bool)
    | Number(text: string)
    | Str(s: string)
    | Array(items: seq<Json>)
    | Object(members: seq<Member>)

  datatype Member = Member(key: string, value: Json)

  datatype Field = Plain(text: string) | Sensitive(digest: string)

  type Fields = map<string, Field>

  /** The two uses of SHA-256: over a value's text, and over all fields in path order. */
  datatype Hash = Hash(value: Json -> string, fields: Fields -> string)

  const SAFE_ROOTS: seq<seq<string>> := [
    ["machine", "type"],
    ["machine", "install"],
    ["machine", "network"],
    ["machine", "kubelet"],
    ["machine", "features"],
    ["machine", "sysctls"],
    ["machine", "kernel", "modules"],
    ["cluster", "clusterName"],
    ["cluster", "network"],
    ["cluster", "discovery"],
    ["cluster", "apiServer"],
    ["cluster", "controllerManager"],
    ["cluster", "scheduler"],
    ["cluster", "etcd"]]

  predicate IsContainer(v: Json) {
    v.Array? || v.Object?
  }

  function Count(v: Json): nat {
    match v
    case Array(items) => |items|
    case Object(members) => |members|
    case _ => 0
  }

  /** The i-th member of an object, or element of an array under its index. */
  function Kid(v: Json, i: nat): (m: Member)
    requires i < Count(v)
    ensures m.value < v
  {
    match v
    case Array(items) => Member(Show(i), items[i])
    case Object(members) => members[i]
  }

  function ScalarText(v: Json): string
    requires !IsContainer(v)
  {
    match v
    case Null => "null"
    case Bool(b) => if b then "true" else "false"
    case Number(text) => text
    case Str(s) => s
  }

  function LowerChar(c: char): char {
    if 'A' <= c <= 'Z' then c - 'A' + 'a' else c
  }

  function Lower(s: string): string {
    seq(|s|, i requires 0 <= i < |s| => LowerChar(s[i]))
  }

  /** The text after the last slash. */
  function LastSegment(path: string): string {
    if path == [] || path[|path| - 1] == '/' then []
    else LastSegment(path[..|path| - 1]) + [path[|path| - 1]]
  }

  predicate SensitiveKey(name: string) {
    var key := Lower(name);
    || key == "ca"
    || Contains(key, "token")
    || Contains(key, "secret")
    || Contains(key, "password")
    || Contains(key, "credential")
    || Contains(key, "auth")
    || Contains(key, "private")
    || key == "psk"
    || EndsWith(key, "psk")
    || Contains(key, "certificate")
    || EndsWith(key, "key")
    || EndsWith(key, "crt")
  }

  predicate SensitivePath(path: string) {
    SensitiveKey(LastSegment(path))
  }

  // ---------------------------------------------------------------------------
  // The projection
  // ---------------------------------------------------------------------------

  function Flatten(path: string, v: Json, h: Hash): Fields
    decreases v
  {
    if SensitivePath(path) then map[path := Sensitive(h.value(v))]
    else if IsContainer(v) then FlattenKids(path, v, Count(v), h)
    else map[path := Plain(ScalarText(v))]
  }

  /** The fields of the first n kids; a later kid wins where paths collide. */
  function FlattenKids(path: string, v: Json, n: nat, h: Hash): Fields
    requires n <= Count(v)
    decreases v, n
  {
    if n == 0 then map[]
    else
      var kid := Kid(v, n - 1);
      FlattenKids(path, v, n - 1, h) + Flatten(path + "/" + kid.key, kid.value, h)
  }

  lemma UnionAssociates(f: Fields, g: Fields, k: Fields)
    ensures f + g + k == f + (g + k)
  {
  }

  lemma OneMoreKid(path: string, v: Json, i: nat, h: Hash, fields: Fields)
    requires i < Count(v)
    ensures fields + FlattenKids(path, v, i + 1, h)
         == fields + FlattenKids(path, v, i, h) + Flatten(path + "/" + Kid(v, i).key, Kid(v, i).value, h)
  {
    UnionAssociates(fields, FlattenKids(path, v, i, h), Flatten(path + "/" + Kid(v, i).key, Kid(v, i).value, h));
  }

  lemma OneField(fields: Fields, path: string, f: Field)
    ensures fields[path := f] == fields + map[path := f]
  {
  }

  method FlattenConfig(path: string, value: Json, h: Hash, fields: Fields) returns (out: Fields)
    ensures out == fields + Flatten(path, value, h)
    decreases value, 1
  {
    if SensitivePath(path) {
      OneField(fields, path, Sensitive(h.value(value)));
      return fields[path := Sensitive(h.value(value))];
    }
    if IsContainer(value) {
      out := FlattenMembers(path, value, h, fields);
    } else {
      OneField(fields, path, Plain(ScalarText(value)));
      out := fields[path := Plain(ScalarText(value))];
    }
  }

  method FlattenMembers(path: string, value: Json, h: Hash, fields: Fields) returns (out: Fields)
    ensures out == fields + FlattenKids(path, value, Count(value), h)
    decreases value, 0
  {
    out := fields;
    assert out == fields + FlattenKids(path, value, 0, h);
    for i := 0 to Count(value)
      invariant out == fields + FlattenKids(path, value, i, h)
    {
      var kid := Kid(value, i);
      OneMoreKid(path, value, i, h, fields);
      out := FlattenConfig(path + "/" + kid.key, kid.value, h, out);
    }
  }

  /** The value at the end of a list of keys. */
  function At(v: Json, steps: seq<string>): Option<Json>
    decreases |steps|
  {
    if steps == [] then Some(v) else AtKid(v, Count(v), steps)
  }

  function AtKid(v: Json, n: nat, steps: seq<string>): Option<Json>
    requires n <= Count(v) && steps != []
    decreases |steps|, n
  {
    if n == 0 then None
    else if Kid(v, n - 1).key == steps[0] then At(Kid(v, n - 1).value, steps[1..])
    else AtKid(v, n - 1, steps)
  }

  /** A path carried on by a list of keys. */
  function Below(path: string, steps: seq<string>): string
    decreases |steps|
  {
    if steps == [] then path else Below(path + "/" + steps[0], steps[1..])
  }

  function PathOf(steps: seq<string>): string {
    Below("", steps)
  }

  function FieldsBelowRoot(config: Json, root: seq<string>, h: Hash): Fields {
    var value := At(config, root);
    if value.Some? then Flatten(PathOf(root), value.value, h) else map[]
  }

  /** A later root wins where paths collide. */
  function FieldsBelow(config: Json, roots: seq<seq<string>>, h: Hash): Fields {
    if roots == [] then map[]
    else FieldsBelow(config, roots[..|roots| - 1], h) + FieldsBelowRoot(config, roots[|roots| - 1], h)
  }

  function FieldsOf(config: Json, h: Hash): Fields {
    FieldsBelow(config, SAFE_ROOTS, h)
  }

  method ProjectRoots(config: Json, roots: seq<seq<string>>, h: Hash) returns (fields: Fields)
    ensures fields == FieldsBelow(config, roots, h)
  {
    fields := map[];
    for n := 0 to |roots|
      invariant fields == FieldsBelow(config, roots[..n], h)
    {
      assert roots[..n + 1][..n] == roots[..n];
      var root := roots[n];
      var value := At(config, root);
      if value.Some? {
        fields := FlattenConfig(PathOf(root), value.value, h, fields);
      }
    }
    assert roots[..|roots|] == roots;
  }

  method Snapshot(config: Json, h: Hash) returns (fingerprint: string, fields: Fields)
    ensures fields == FieldsOf(config, h) && fingerprint == h.fields(fields)
  {
    fields := ProjectRoots(config, SAFE_ROOTS, h);
    fingerprint := h.fields(fields);
  }

  // ---------------------------------------------------------------------------
  // No secret is stored in the clear
  // ---------------------------------------------------------------------------

  /** A field is a digest exactly at a sensitive path. */
  ghost predicate Redacted(fields: Fields) {
    forall k <- fields :: fields[k].Sensitive? <==> SensitivePath(k)
  }

  lemma UnionRedacts(f: Fields, g: Fields)
    requires Redacted(f) && Redacted(g)
    ensures Redacted(f + g)
  {
  }

  lemma {:induction false} FlattenRedacts(path: string, v: Json, h: Hash)
    ensures Redacted(Flatten(path, v, h))
    decreases v
  {
    if !SensitivePath(path) && IsContainer(v) {
      KidsRedact(path, v, Count(v), h);
    }
  }

  lemma {:induction false} KidsRedact(path: string, v: Json, n: nat, h: Hash)
    requires n <= Count(v)
    ensures Redacted(FlattenKids(path, v, n, h))
    decreases v, n
  {
    if n > 0 {
      KidsRedact(path, v, n - 1, h);
      var kid := Kid(v, n - 1);
      FlattenRedacts(path + "/" + kid.key, kid.value, h);
      UnionRedacts(FlattenKids(path, v, n - 1, h), Flatten(path + "/" + kid.key, kid.value, h));
    }
  }

  lemma {:induction false} BelowRedacts(config: Json, roots: seq<seq<string>>, h: Hash)
    ensures Redacted(FieldsBelow(config, roots, h))
  {
    if roots != [] {
      BelowRedacts(config, roots[..|roots| - 1], h);
      var root := roots[|roots| - 1];
      if At(config, root).Some? { FlattenRedacts(PathOf(root), At(config, root).value, h); }
      UnionRedacts(FieldsBelow(config, roots[..|roots| - 1], h), FieldsBelowRoot(config, root, h));
    }
  }

  /** For configurations of any depth: plain fields and sensitive paths never meet. */
  lemma NoSecretIsPlain(config: Json, h: Hash)
    ensures Redacted(FieldsOf(config, h))
  {
    BelowRedacts(config, SAFE_ROOTS, h);
  }

  // ---------------------------------------------------------------------------
  // Plain fields do not depend on secrets
  // ---------------------------------------------------------------------------

  /** Equal but for what stands at or below sensitive paths. */
  predicate LowEqual(path: string, a: Json, b: Json)
    decreases a
  {
    || SensitivePath(path)
    || (if IsContainer(a) then
          && a.Array? == b.Array? && a.Object? == b.Object? && Count(a) == Count(b)
          && LowEqualKids(path, a, b, Count(a))
        else a == b)
  }

  predicate LowEqualKids(path: string, a: Json, b: Json, n: nat)
    requires n <= Count(a) == Count(b)
    decreases a, n
  {
    n == 0
    || (LowEqualKids(path, a, b, n - 1)
        && Kid(a, n - 1).key == Kid(b, n - 1).key
        && LowEqual(path + "/" + Kid(a, n - 1).key, Kid(a, n - 1).value, Kid(b, n - 1).value))
  }

  /** The same paths, the same plain values, digests in the same places. */
  predicate SamePublic(f: Fields, g: Fields) {
    && f.Keys == g.Keys
    && forall k <- f :: f[k] == g[k] || (f[k].Sensitive? && g[k].Sensitive?)
  }

  lemma UnionSamePublic(f: Fields, g: Fields, f': Fields, g': Fields)
    requires SamePublic(f, f') && SamePublic(g, g')
    ensures SamePublic(f + g, f' + g')
  {
  }

  lemma {:induction false} FlattenHidesSecrets(path: string, a: Json, b: Json, h: Hash)
    requires LowEqual(path, a, b)
    ensures SamePublic(Flatten(path, a, h), Flatten(path, b, h))
    decreases a
  {
    if !SensitivePath(path) && IsContainer(a) {
      KidsHideSecrets(path, a, b, Count(a), h);
    }
  }

  lemma {:induction false} KidsHideSecrets(path: string, a: Json, b: Json, n: nat, h: Hash)
    requires n <= Count(a) == Count(b) && LowEqualKids(path, a, b, n)
    ensures SamePublic(FlattenKids(path, a, n, h), FlattenKids(path, b, n, h))
    decreases a, n
  {
    if n > 0 {
      KidsHideSecrets(path, a, b, n - 1, h);
      var p, x, y := path + "/" + Kid(a, n - 1).key, Kid(a, n - 1).value, Kid(b, n - 1).value;
      FlattenHidesSecrets(p, x, y, h);
      UnionSamePublic(FlattenKids(path, a, n - 1, h), Flatten(p, x, h), FlattenKids(path, b, n - 1, h), Flatten(p, y, h));
    }
  }

  /** Below a safe root, the two configurations differ in secrets only. */
  predicate LowEqualAt(a: Json, b: Json, root: seq<string>) {
    match (At(a, root), At(b, root))
    case (None, None) => true
    case (Some(v), Some(w)) => LowEqual(PathOf(root), v, w)
    case _ => false
  }

  lemma {:induction false} BelowHidesSecrets(a: Json, b: Json, roots: seq<seq<string>>, h: Hash)
    requires forall root <- roots :: LowEqualAt(a, b, root)
    ensures SamePublic(FieldsBelow(a, roots, h), FieldsBelow(b, roots, h))
  {
    if roots != [] {
      BelowHidesSecrets(a, b, roots[..|roots| - 1], h);
      var root := roots[|roots| - 1];
      assert LowEqualAt(a, b, root);
      if At(a, root).Some? {
        FlattenHidesSecrets(PathOf(root), At(a, root).value, At(b, root).value, h);
      }
      UnionSamePublic(FieldsBelow(a, roots[..|roots| - 1], h), FieldsBelowRoot(a, root, h),
                      FieldsBelow(b, roots[..|roots| - 1], h), FieldsBelowRoot(b, root, h));
    }
  }

  /** Configurations that differ in secrets, or outside the safe roots, have the same plain fields. */
  lemma SnapshotHidesSecrets(a: Json, b: Json, h: Hash)
    requires forall root <- SAFE_ROOTS :: LowEqualAt(a, b, root)
    ensures SamePublic(FieldsOf(a, h), FieldsOf(b, h))
  {
    BelowHidesSecrets(a, b, SAFE_ROOTS, h);
  }

  // ---------------------------------------------------------------------------
  // Nothing else is lost: the projection, path by path
  // ---------------------------------------------------------------------------

  predicate NoSlash(s: string) {
    '/' !in s
  }

  predicate Clean(steps: seq<string>) {
    forall s <- steps :: NoSlash(s)
  }

  /** Within an object, keys differ and hold no slash. */
  predicate WellKeyed(v: Json) {
    && (v.Object? ==>
          && (forall m <- v.members :: NoSlash(m.key))
          && (forall i, j | 0 <= i < j < |v.members| :: v.members[i].key != v.members[j].key))
    && (forall i | 0 <= i < Count(v) :: WellKeyed(Kid(v, i).value))
  }

  lemma KeysAreClean(v: Json, i: nat, j: nat)
    requires WellKeyed(v) && i < Count(v) && j < Count(v)
    ensures NoSlash(Kid(v, i).key) && (Kid(v, i).key == Kid(v, j).key ==> i == j)
  {
    if v.Object? {
      assert v.members[i] in v.members;
    } else {
      ShowRoundTrip(i);
      ShowRoundTrip(j);
      assert !IsDigit('/');
    }
  }

  lemma {:induction false} LastSegmentOf(path: string, key: string)
    ensures LastSegment(path + "/" + key) == LastSegment(key)
  {
    var p := path + "/" + key;
    if key != [] {
      assert p[..|p| - 1] == path + "/" + key[..|key| - 1];
      LastSegmentOf(path, key[..|key| - 1]);
    }
  }

  lemma {:induction false} LastSegmentOfKey(key: string)
    requires NoSlash(key)
    ensures LastSegment(key) == key
  {
    if key != [] {
      LastSegmentOfKey(key[..|key| - 1]);
      assert key == key[..|key| - 1] + [key[|key| - 1]];
    }
  }

  /** The last key decides: a path is as sensitive as its last key, from that key's last slash on. */
  lemma LastKeyDecides(path: string, key: string)
    ensures SensitivePath(path + "/" + key) <==> SensitiveKey(LastSegment(key))
    ensures NoSlash(key) ==> LastSegment(key) == key
  {
    LastSegmentOf(path, key);
    if NoSlash(key) { LastSegmentOfKey(key); }
  }

  /** The capital and the small form of one letter. */
  predicate Cases(capital: char, small: char) {
    'A' <= capital <= 'Z' && 'a' <= small <= 'z' && capital as int - 'A' as int == small as int - 'a' as int
  }

  predicate SameButCase(a: string, b: string) {
    |a| == |b| && forall i | 0 <= i < |a| :: a[i] == b[i] || Cases(a[i], b[i]) || Cases(b[i], a[i])
  }

  /** The word, in any case, begins at the `i`th letter. */
  predicate WordAt(name: string, i: nat, word: string) {
    i + |word| <= |name| && SameButCase(name[i..i + |word|], word)
  }

  predicate HoldsWord(name: string, word: string) {
    exists i | 0 <= i <= |name| :: WordAt(name, i, word)
  }

  predicate EndsInWord(name: string, word: string) {
    |word| <= |name| && WordAt(name, |name| - |word|, word)
  }

  predicate IsSmall(word: string) {
    forall c <- word :: 'a' <= c <= 'z'
  }

  lemma LowerIs(s: string, word: string)
    requires IsSmall(word)
    ensures Lower(s) == word <==> SameButCase(s, word)
  {
    if |s| == |word| {
      assert forall i | 0 <= i < |s| :: Lower(s)[i] == LowerChar(s[i]) && word[i] in word;
    }
  }

  lemma LowerAt(name: string, i: nat, word: string)
    requires IsSmall(word) && i + |word| <= |name|
    ensures WordAt(name, i, word) <==> StartsWith(Lower(name)[i..], word)
    ensures i + |word| == |name| ==> (WordAt(name, i, word) <==> Lower(name)[i..] == word)
  {
    var part := name[i..i + |word|];
    LowerIs(part, word);
    assert Lower(name)[i..][..|word|] == Lower(part);
    assert i + |word| == |name| ==> Lower(name)[i..] == Lower(part);
  }

  lemma LowerContains(name: string, word: string)
    requires IsSmall(word)
    ensures Contains(Lower(name), word) <==> HoldsWord(name, word)
    ensures EndsWith(Lower(name), word) <==> EndsInWord(name, word)
  {
    forall i: nat | i + |word| <= |name| ensures WordAt(name, i, word) <==> StartsWith(Lower(name)[i..], word) {
      LowerAt(name, i, word);
    }
    if |word| <= |name| { LowerAt(name, |name| - |word|, word); }
  }

  /** What makes a key sensitive, in letters of either case: these words anywhere or at its end, and nothing else. */
  lemma SensitiveKeyIff(name: string)
    ensures SensitiveKey(name) <==>
      || SameButCase(name, "ca")
      || HoldsWord(name, "token") || HoldsWord(name, "secret") || HoldsWord(name, "password")
      || HoldsWord(name, "credential") || HoldsWord(name, "auth") || HoldsWord(name, "private")
      || HoldsWord(name, "certificate")
      || EndsInWord(name, "psk") || EndsInWord(name, "key") || EndsInWord(name, "crt")
  {
    LowerIs(name, "ca");
    LowerContains(name, "token");
    LowerContains(name, "secret");
    LowerContains(name, "password");
    LowerContains(name, "credential");
    LowerContains(name, "auth");
    LowerContains(name, "private");
    LowerContains(name, "certificate");
    LowerContains(name, "psk");
    LowerContains(name, "key");
    LowerContains(name, "crt");
  }

  /** Case never tells keys apart. */
  lemma CaseDoesNotMatter(a: string, b: string)
    requires SameButCase(a, b)
    ensures SensitiveKey(a) <==> SensitiveKey(b)
  {
    assert Lower(a) == Lower(b);
  }

  /** The path itself, or the path and a slash and more. */
  predicate IsBelow(path: string, k: string) {
    path <= k && (|k| == |path| || k[|path|] == '/')
  }

  function UpToSlash(s: string): string {
    if s == [] || s[0] == '/' then [] else [s[0]] + UpToSlash(s[1..])
  }

  lemma {:induction false} FirstKeyOf(key: string, s: string)
    requires NoSlash(key) && IsBelow(key, s)
    ensures UpToSlash(s) == key
  {
    if key != [] {
      assert s[0] == key[0] && s[0] in key;
      FirstKeyOf(key[1..], s[1..]);
      assert key == [key[0]] + key[1..];
    }
  }

  lemma SiblingsDoNotMeet(path: string, a: string, b: string, k: string)
    requires NoSlash(a) && NoSlash(b) && IsBelow(path + "/" + a, k) && IsBelow(path + "/" + b, k)
    ensures a == b
  {
    var n := |path| + 1;
    assert (path + "/" + a)[n..] == a && (path + "/" + b)[n..] == b;
    FirstKeyOf(a, k[n..]);
    FirstKeyOf(b, k[n..]);
  }

  lemma {:induction false} BelowStartsWithPath(path: string, steps: seq<string>)
    ensures IsBelow(path, Below(path, steps)) && |Below(path, steps)| >= |path| + |steps|
    decreases |steps|
  {
    if steps != [] {
      BelowStartsWithPath(path + "/" + steps[0], steps[1..]);
    }
  }

  lemma {:induction false} BelowAppend(path: string, a: seq<string>, b: seq<string>)
    ensures Below(path, a + b) == Below(Below(path, a), b)
    decreases |a|
  {
    if a == [] {
      assert a + b == b;
    } else {
      assert (a + b)[1..] == a[1..] + b;
      BelowAppend(path + "/" + a[0], a[1..], b);
    }
  }

  lemma {:induction false} BelowIsInjective(path: string, a: seq<string>, b: seq<string>)
    requires Clean(a) && Clean(b) && Below(path, a) == Below(path, b)
    ensures a == b
    decreases |a|
  {
    BelowStartsWithPath(path, a);
    BelowStartsWithPath(path, b);
    if a != [] && b != [] {
      BelowStartsWithPath(path + "/" + a[0], a[1..]);
      BelowStartsWithPath(path + "/" + b[0], b[1..]);
      SiblingsDoNotMeet(path, a[0], b[0], Below(path, a));
      BelowIsInjective(path + "/" + a[0], a[1..], b[1..]);
      assert a == [a[0]] + a[1..] && b == [b[0]] + b[1..];
    }
  }

  /** The steps that lead to a field. */
  lemma {:induction false} FieldHasSteps(path: string, v: Json, h: Hash, k: string) returns (steps: seq<string>)
    requires WellKeyed(v) && k in Flatten(path, v, h)
    ensures k == Below(path, steps) && Clean(steps)
    decreases v
  {
    steps := [];
    if !SensitivePath(path) && IsContainer(v) {
      steps := KidFieldHasSteps(path, v, Count(v), h, k);
    }
  }

  lemma {:induction false} KidFieldHasSteps(path: string, v: Json, n: nat, h: Hash, k: string)
    returns (steps: seq<string>)
    requires WellKeyed(v) && n <= Count(v) && k in FlattenKids(path, v, n, h)
    ensures steps != [] && k == Below(path, steps) && Clean(steps)
    decreases v, n
  {
    var kid := Kid(v, n - 1);
    if k in Flatten(path + "/" + kid.key, kid.value, h) {
      var more := FieldHasSteps(path + "/" + kid.key, kid.value, h, k);
      KeysAreClean(v, n - 1, n - 1);
      steps := [kid.key] + more;
      assert steps[1..] == more;
    } else {
      steps := KidFieldHasSteps(path, v, n - 1, h, k);
    }
  }

  /** The field a value gives at its own path, if it gives one. */
  function FieldOf(path: string, v: Option<Json>, h: Hash): Option<Field> {
    if v.None? then None
    else if SensitivePath(path) then Some(Sensitive(h.value(v.value)))
    else if IsContainer(v.value) then None
    else Some(Plain(ScalarText(v.value)))
  }

  function Lookup(fields: Fields, k: string): Option<Field> {
    if k in fields then Some(fields[k]) else None
  }

  /** Some path on the way, before the last key, is sensitive. */
  predicate Hidden(path: string, steps: seq<string>) {
    exists i | 0 <= i < |steps| :: SensitivePath(Below(path, steps[..i]))
  }

  lemma HiddenByFirst(path: string, steps: seq<string>)
    requires steps != []
    ensures Hidden(path, steps) <==> SensitivePath(path) || Hidden(path + "/" + steps[0], steps[1..])
  {
    var next, rest := path + "/" + steps[0], steps[1..];
    assert steps[..0] == [];
    forall i | 0 <= i < |rest| ensures Below(next, rest[..i]) == Below(path, steps[..i + 1]) {
      assert steps[..i + 1][1..] == rest[..i];
    }
    if Hidden(path, steps) && !SensitivePath(path) {
      var i :| 0 <= i < |steps| && SensitivePath(Below(path, steps[..i]));
      assert SensitivePath(Below(next, rest[..i - 1]));
    }
    if Hidden(next, rest) {
      var i :| 0 <= i < |rest| && SensitivePath(Below(next, rest[..i]));
      assert SensitivePath(Below(path, steps[..i + 1]));
    }
  }

  /** The projection of a value, path by path: every value not below a sensitive path gives its own field. */
  lemma {:induction false} FlattenPathByPath(path: string, v: Json, h: Hash, steps: seq<string>)
    requires WellKeyed(v) && Clean(steps)
    ensures Lookup(Flatten(path, v, h), Below(path, steps))
         == if Hidden(path, steps) then None else FieldOf(Below(path, steps), At(v, steps), h)
    decreases v
  {
    var k := Below(path, steps);
    BelowStartsWithPath(path, steps);
    if steps != [] { HiddenByFirst(path, steps); }
    if SensitivePath(path) || !IsContainer(v) {
      assert k == path <==> steps == [];
    } else if steps == [] {
      if k in Flatten(path, v, h) {
        var s := KidFieldHasSteps(path, v, Count(v), h, k);
        BelowStartsWithPath(path, s);
      }
    } else {
      KidsPathByPath(path, v, Count(v), h, steps);
    }
  }

  lemma OtherKidIsElsewhere(path: string, v: Json, i: nat, h: Hash, steps: seq<string>)
    requires WellKeyed(v) && i < Count(v) && steps != [] && Clean(steps) && Kid(v, i).key != steps[0]
    ensures Below(path, steps) !in Flatten(path + "/" + Kid(v, i).key, Kid(v, i).value, h)
  {
    var kid, k := Kid(v, i), Below(path, steps);
    KeysAreClean(v, i, i);
    BelowStartsWithPath(path + "/" + steps[0], steps[1..]);
    assert IsBelow(path + "/" + steps[0], k) && NoSlash(steps[0]);
    if IsBelow(path + "/" + kid.key, k) {
      SiblingsDoNotMeet(path, kid.key, steps[0], k);
    } else {
      FieldsAreBelow(path + "/" + kid.key, kid.value, h, k);
    }
  }

  lemma FieldsAreBelow(path: string, v: Json, h: Hash, k: string)
    requires WellKeyed(v)
    ensures k in Flatten(path, v, h) ==> IsBelow(path, k)
  {
    if k in Flatten(path, v, h) {
      var s := FieldHasSteps(path, v, h, k);
      BelowStartsWithPath(path, s);
    }
  }

  /** The last of the first `n` kids, when it is the one the path leads to. */
  lemma ThisKid(path: string, v: Json, n: nat, h: Hash, steps: seq<string>)
    requires WellKeyed(v) && 0 < n <= Count(v) && steps != [] && Clean(steps) && Kid(v, n - 1).key == steps[0]
    ensures AtKid(v, n, steps) == At(Kid(v, n - 1).value, steps[1..]) && AtKid(v, n - 1, steps) == None
    ensures Below(path, steps) == Below(path + "/" + Kid(v, n - 1).key, steps[1..])
  {
    FoundOnce(v, n - 1, n - 1, steps);
  }

  lemma {:induction false} KidsPathByPath(path: string, v: Json, n: nat, h: Hash, steps: seq<string>)
    requires WellKeyed(v) && n <= Count(v) && steps != [] && Clean(steps)
    ensures Lookup(FlattenKids(path, v, n, h), Below(path, steps))
         == if Hidden(path + "/" + steps[0], steps[1..]) then None
            else FieldOf(Below(path, steps), AtKid(v, n, steps), h)
    decreases v, n
  {
    if n > 0 {
      var kid, k := Kid(v, n - 1), Below(path, steps);
      var before, below := FlattenKids(path, v, n - 1, h), Flatten(path + "/" + kid.key, kid.value, h);
      KidsPathByPath(path, v, n - 1, h, steps);
      assert FlattenKids(path, v, n, h) == before + below;
      LookupUnion(before, below, k);
      if kid.key == steps[0] {
        ThisKid(path, v, n, h, steps);
        FlattenPathByPath(path + "/" + kid.key, kid.value, h, steps[1..]);
        assert Lookup(before, k) == None;
      } else {
        OtherKidIsElsewhere(path, v, n - 1, h, steps);
        assert AtKid(v, n, steps) == AtKid(v, n - 1, steps);
      }
    }
  }

  lemma LookupUnion(f: Fields, g: Fields, k: string)
    ensures Lookup(f + g, k) == if k in g then Lookup(g, k) else Lookup(f, k)
  {
  }

  lemma {:induction false} FoundOnce(v: Json, n: nat, i: nat, steps: seq<string>)
    requires WellKeyed(v) && n <= i < Count(v) && steps != [] && Kid(v, i).key == steps[0]
    ensures AtKid(v, n, steps) == None
  {
    if n > 0 {
      KeysAreClean(v, n - 1, i);
      FoundOnce(v, n - 1, i, steps);
    }
  }

  /** How a value that holds no others is written down, where nothing is secret. */
  predicate WrittenAs(v: Json, text: string) {
    || (v == Null && text == "null") || (v == Bool(true) && text == "true") || (v == Bool(false) && text == "false")
    || v == Number(text) || v == Str(text)
  }

  /** The field at a path that is a value's own. */
  predicate OwnField(fields: Fields, path: string, v: Json, h: Hash) {
    path in fields && (if SensitivePath(path) then fields[path] == Sensitive(h.value(v))
                       else fields[path].Plain? && WrittenAs(v, fields[path].text))
  }

  /** A value that holds no others gives its own field and no other. */
  lemma ScalarGivesItsField(path: string, v: Json, h: Hash)
    requires !v.Array? && !v.Object?
    ensures Flatten(path, v, h).Keys == {path} && OwnField(Flatten(path, v, h), path, v, h)
  {
  }

  lemma {:induction false} KidIsFound(v: Json, n: nat, i: nat)
    requires WellKeyed(v) && i < n <= Count(v)
    ensures AtKid(v, n, [Kid(v, i).key]) == Some(Kid(v, i).value)
  {
    if i == n - 1 {
      assert [Kid(v, i).key][1..] == [];
    } else {
      KeysAreClean(v, i, n - 1);
      KidIsFound(v, n - 1, i);
    }
  }

  lemma KidGivesItsField(path: string, v: Json, i: nat, h: Hash)
    requires WellKeyed(v) && IsContainer(v) && i < Count(v) && !SensitivePath(path) && !IsContainer(Kid(v, i).value)
    ensures OwnField(Flatten(path, v, h), path + "/" + Kid(v, i).key, Kid(v, i).value, h)
  {
    var steps := [Kid(v, i).key];
    KeysAreClean(v, i, i);
    KidIsFound(v, Count(v), i);
    FlattenPathByPath(path, v, h, steps);
    HiddenByFirst(path, steps);
    assert steps[1..] == [] && Below(path, steps) == path + "/" + Kid(v, i).key;
  }

  /** Each member of an object is projected under its key, each element of an array under its index. */
  lemma MembersAndElementsGiveTheirFields(path: string, v: Json, i: nat, h: Hash)
    requires WellKeyed(v) && !SensitivePath(path)
    ensures v.Object? && i < |v.members| && !IsContainer(v.members[i].value) ==>
      OwnField(Flatten(path, v, h), path + "/" + v.members[i].key, v.members[i].value, h)
    ensures v.Array? && i < |v.items| && !IsContainer(v.items[i]) ==>
      OwnField(Flatten(path, v, h), path + "/" + Show(i), v.items[i], h)
  {
    if (v.Object? && i < |v.members| && !IsContainer(v.members[i].value))
      || (v.Array? && i < |v.items| && !IsContainer(v.items[i]))
    {
      KidGivesItsField(path, v, i, h);
    }
  }

  // ---------------------------------------------------------------------------
  // The snapshot, path by path
  // ---------------------------------------------------------------------------

  lemma {:induction false} AtAppend(v: Json, a: seq<string>, b: seq<string>)
    ensures At(v, a + b) == if At(v, a).None? then None else At(At(v, a).value, b)
    decreases |a|
  {
    if a == [] {
      assert a + b == b;
    } else {
      AtKidAppend(v, Count(v), a, b);
    }
  }

  lemma {:induction false} AtKidAppend(v: Json, n: nat, a: seq<string>, b: seq<string>)
    requires n <= Count(v) && a != []
    ensures AtKid(v, n, a + b) == if AtKid(v, n, a).None? then None else At(AtKid(v, n, a).value, b)
    decreases |a|, n
  {
    if n > 0 {
      assert (a + b)[1..] == a[1..] + b;
      if Kid(v, n - 1).key == a[0] {
        AtAppend(Kid(v, n - 1).value, a[1..], b);
      } else {
        AtKidAppend(v, n - 1, a, b);
      }
    }
  }

  lemma {:induction false} AtStaysWellKeyed(v: Json, steps: seq<string>)
    requires WellKeyed(v) && At(v, steps).Some?
    ensures WellKeyed(At(v, steps).value)
    decreases |steps|
  {
    if steps != [] {
      AtKidStaysWellKeyed(v, Count(v), steps);
    }
  }

  lemma {:induction false} AtKidStaysWellKeyed(v: Json, n: nat, steps: seq<string>)
    requires WellKeyed(v) && n <= Count(v) && steps != [] && AtKid(v, n, steps).Some?
    ensures WellKeyed(AtKid(v, n, steps).value)
    decreases |steps|, n
  {
    if Kid(v, n - 1).key == steps[0] {
      AtStaysWellKeyed(Kid(v, n - 1).value, steps[1..]);
    } else {
      AtKidStaysWellKeyed(v, n - 1, steps);
    }
  }

  /** The path lies at or below the root, and nothing on the way from the root is sensitive. */
  predicate Selected(root: seq<string>, t: seq<string>) {
    root <= t && !Hidden(PathOf(root), t[|root|..])
  }

  lemma RootPathByPath(config: Json, root: seq<string>, h: Hash, t: seq<string>)
    requires WellKeyed(config) && Clean(t) && Clean(root)
    ensures Lookup(FieldsBelowRoot(config, root, h), PathOf(t))
         == if Selected(root, t) then FieldOf(PathOf(t), At(config, t), h) else None
  {
    var value, k := At(config, root), PathOf(t);
    if value.Some? { AtStaysWellKeyed(config, root); }
    if root <= t {
      var steps := t[|root|..];
      assert t == root + steps;
      BelowAppend("", root, steps);
      AtAppend(config, root, steps);
      if value.Some? { FlattenPathByPath(PathOf(root), value.value, h, steps); }
    } else if value.Some? && k in Flatten(PathOf(root), value.value, h) {
      var steps := FieldHasSteps(PathOf(root), value.value, h, k);
      BelowAppend("", root, steps);
      BelowIsInjective("", t, root + steps);
    }
  }

  lemma {:induction false} RootsPathByPath(config: Json, roots: seq<seq<string>>, h: Hash, t: seq<string>)
    requires WellKeyed(config) && Clean(t)
    requires forall root <- roots :: Clean(root)
    ensures Lookup(FieldsBelow(config, roots, h), PathOf(t))
         == if exists root <- roots :: Selected(root, t) then FieldOf(PathOf(t), At(config, t), h) else None
  {
    if roots != [] {
      var init, root := roots[..|roots| - 1], roots[|roots| - 1];
      assert roots == init + [root];
      assert forall r :: r in roots <==> r in init || r == root;
      RootsPathByPath(config, init, h, t);
      RootPathByPath(config, root, h, t);
    }
  }

  lemma RootsHoldNoSlash()
    ensures forall root <- SAFE_ROOTS :: Clean(root)
  {
  }

  /**
   The whole snapshot of a configuration whose keys hold no slash, path by path: a field
   stands for the value at its path, and stands there exactly when the path leads from a
   safe root over no sensitive key to a sensitive key or a scalar.
   */
  lemma SnapshotPathByPath(config: Json, h: Hash, t: seq<string>)
    requires WellKeyed(config) && Clean(t)
    ensures Lookup(FieldsOf(config, h), PathOf(t))
         == if exists root <- SAFE_ROOTS :: Selected(root, t) then FieldOf(PathOf(t), At(config, t), h) else None
  {
    RootsHoldNoSlash();
    RootsPathByPath(config, SAFE_ROOTS, h, t);
  }

  /** Every field of such a snapshot stands at the path of some list of keys. */
  lemma {:induction false} EveryFieldHasAPath(config: Json, roots: seq<seq<string>>, h: Hash, k: string)
    returns (t: seq<string>)
    requires WellKeyed(config) && k in FieldsBelow(config, roots, h)
    requires forall root <- roots :: Clean(root)
    ensures k == PathOf(t) && Clean(t) && exists root <- roots :: root <= t
  {
    var init, root := roots[..|roots| - 1], roots[|roots| - 1];
    assert root in roots && forall r <- init :: r in roots;
    if k in FieldsBelowRoot(config, root, h) {
      AtStaysWellKeyed(config, root);
      var steps := FieldHasSteps(PathOf(root), At(config, root).value, h, k);
      BelowAppend("", root, steps);
      t := root + steps;
      assert root in roots && root <= t;
    } else {
      t := EveryFieldHasAPath(config, init, h, k);
      var r :| r in init && r <= t;
      assert r in roots;
    }
  }
}
