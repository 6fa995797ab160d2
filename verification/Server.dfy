/**
 The API server as the informer sees it: one collection with a history of
 versions. Version `v` is the state after the first `v` changes; a change can
 also concern some other collection, since versions are shared cluster-wide.
 */
module Server {
  import opened Wrappers

  datatype Object = Object(uid: Option<string>, namespace: Option<string>, name: Option<string>, body: string)

  datatype NameKey = NameKey(namespace: Option<string>, name: string)

  function OrEmpty(s: Option<string>): string {
    match s case None => "" case Some(v) => v
  }

  function NameKeyOf(o: Object): NameKey {
    NameKey(o.namespace, OrEmpty(o.name))
  }

  /** The row key: the uid, or "namespace/name" for objects that carry none. */
  function UidOf(o: Object): string {
    match o.uid
    case Some(uid) => uid
    case None => OrEmpty(o.namespace) + "/" + OrEmpty(o.name)
  }

  type Objects = map<string, Object>

  datatype Change = Put(item: Object) | Del(item: Object) | Elsewhere

  function Changed(objs: Objects, c: Change): Objects {
    match c
    case Put(o) => objs[UidOf(o) := o]
    case Del(o) => objs - {UidOf(o)}
    case Elsewhere => objs
  }

  function Contents(h: seq<Change>, v: nat): Objects
    requires v <= |h|
  {
    if v == 0 then map[] else Changed(Contents(h, v - 1), h[v - 1])
  }

  /** The server keeps names unique and never renames an object. */
  ghost predicate Legal(objs: Objects, c: Change) {
    match c
    case Put(o) =>
      (UidOf(o) in objs ==> NameKeyOf(objs[UidOf(o)]) == NameKeyOf(o))
      && (forall u <- objs :: u != UidOf(o) ==> NameKeyOf(objs[u]) != NameKeyOf(o))
    case Del(o) => UidOf(o) in objs && NameKeyOf(objs[UidOf(o)]) == NameKeyOf(o)
    case Elsewhere => true
  }

  ghost predicate LegalAt(h: seq<Change>, v: nat)
    requires v < |h|
  {
    Legal(Contents(h, v), h[v])
  }

  ghost predicate WellFormed(h: seq<Change>) {
    forall v | 0 <= v < |h| :: LegalAt(h, v)
  }

  lemma {:induction false} ContentsOfPrefix(h: seq<Change>, c: Change, v: nat)
    requires v <= |h|
    ensures Contents(h + [c], v) == Contents(h, v)
  {
    if v > 0 { ContentsOfPrefix(h, c, v - 1); }
  }

  lemma GrowthKeepsWellFormed(h: seq<Change>, c: Change)
    requires WellFormed(h) && Legal(Contents(h, |h|), c)
    ensures WellFormed(h + [c])
  {
    var h' := h + [c];
    forall v | 0 <= v < |h'| ensures LegalAt(h', v) {
      ContentsOfPrefix(h, c, v);
      assert v < |h| ==> LegalAt(h, v);
      assert h'[v] == if v < |h| then h[v] else c;
      assert Contents(h', v) == Contents(h, v);
    }
  }

  ghost predicate KeyedByUid(objs: Objects) {
    forall u <- objs :: UidOf(objs[u]) == u
  }

  ghost predicate NamesUnique(objs: Objects) {
    forall u, w | u in objs && w in objs && NameKeyOf(objs[u]) == NameKeyOf(objs[w]) :: u == w
  }

  lemma LegalStaysKeyed(objs: Objects, c: Change)
    requires KeyedByUid(objs) && NamesUnique(objs) && Legal(objs, c)
    ensures KeyedByUid(Changed(objs, c)) && NamesUnique(Changed(objs, c))
  {
  }

  lemma {:induction false} ContentsAreKeyed(h: seq<Change>, v: nat)
    requires WellFormed(h) && v <= |h|
    ensures KeyedByUid(Contents(h, v)) && NamesUnique(Contents(h, v))
  {
    if v > 0 {
      ContentsAreKeyed(h, v - 1);
      assert LegalAt(h, v - 1);
      LegalStaysKeyed(Contents(h, v - 1), h[v - 1]);
    }
  }

  /** Nothing in this collection changed between the two versions. */
  ghost predicate Quiet(h: seq<Change>, lo: nat, hi: nat) {
    lo <= hi <= |h| && forall v | lo <= v < hi :: h[v] == Elsewhere
  }

  lemma {:induction false} QuietContents(h: seq<Change>, lo: nat, hi: nat)
    requires Quiet(h, lo, hi)
    ensures Contents(h, lo) == Contents(h, hi)
    decreases hi
  {
    if lo < hi {
      QuietContents(h, lo, hi - 1);
    }
  }
}
