/** Referential integrity: what the objects of a store may refer to. */
module Integrity {
  import opened Wrappers
  import opened SaiStore

  ghost predicate Unmentioned(s: Store, h: Handle) {
    h.OidH? ==> forall g | g in s :: !Refers(s, g, h.oid)
  }

  /** The store refers to no id that has not been allocated yet. */
  ghost predicate OldOnly(s: Store, next: nat) {
    forall h, o: Oid | h in s && o.Vid? && o.num >= next :: !Refers(s, h, o)
  }

  /** No object has an id that has not been allocated yet. */
  ghost predicate NewOnly(s: Store, next: nat) {
    forall o: Oid | o.Vid? && o.num >= next :: OidH(o) !in s
  }

  /** No object refers to one that is not there. */
  ghost predicate Closed(s: Store) {
    forall h, o: Oid | h in s && Refers(s, h, o) :: o.Null? || Live(s, o)
  }

  lemma {:induction false} LiveMentions(s: Store, v: Value, o: Oid)
    requires LiveV(s, v) && MentionsV(v, o)
    ensures o.Null? || Live(s, o)
  {
    match v
    case Dict(f) => LiveMentionsF(s, f, o);
    case Ref(_) =>
    case RefList(_) =>
    case Txt(_) =>
    case Sym(_) =>
  }

  lemma {:induction false} LiveMentionsF(s: Store, f: Fields, o: Oid)
    requires LiveF(s, f) && MentionsF(f, o)
    ensures o.Null? || Live(s, o)
  {
    match f
    case NoFields =>
    case Field(_, v, rest) =>
      if MentionsV(v, o) { LiveMentions(s, v, o); } else { LiveMentionsF(s, rest, o); }
  }

  lemma {:induction false} LiveMentionsA(s: Store, attrs: seq<Value>, o: Oid)
    requires WellFormedAttrs(attrs) && LiveFlat(s, attrs) && MentionsA(AttrMap(attrs), o)
    ensures o.Null? || Live(s, o)
  {
    if |attrs| >= 2 {
      var n := |attrs| - 2;
      assert attrs[..n + 1][..n] == attrs[..n] && LiveFlat(s, attrs[..n + 1]);
      var k :| k in AttrMap(attrs) && MentionsV(AttrMap(attrs)[k], o);
      if k == NameOf(attrs[n]) {
        LiveMentions(s, attrs[n + 1], o);
      } else {
        LiveMentionsA(s, attrs[..n], o);
      }
    }
  }

  /** A new object refers only to objects that were there before it. */
  lemma {:induction false} NewRefersBack(s: Store, h: Handle, attrs: seq<Value>, o: Oid)
    requires CreateStatus(s, h, attrs) == Success && Refers(s[h := AttrMap(attrs)], h, o)
    ensures o.Null? || Live(s, o)
  {
    if MentionsA(AttrMap(attrs), o) { LiveMentionsA(s, attrs, o); } else { LiveMentionsF(s, h.key, o); }
  }

  /** Every mention in the attributes is a mention in the list they came from. */
  lemma {:induction false} MentionedInList(attrs: seq<Value>, o: Oid)
    requires MentionsA(AttrMap(attrs), o)
    ensures exists i :: 0 <= i < |attrs| && MentionsV(attrs[i], o)
  {
    var n := |attrs| - 2;
    var k :| k in AttrMap(attrs) && MentionsV(AttrMap(attrs)[k], o);
    if k == NameOf(attrs[n]) {
      assert MentionsV(attrs[n + 1], o);
    } else {
      MentionedInList(attrs[..n], o);
      var i :| 0 <= i < n && MentionsV(attrs[..n][i], o);
      assert MentionsV(attrs[i], o);
    }
  }

  /** One more pair. */
  lemma {:induction false} AttrMapNext(attrs: seq<Value>, name: string, v: Value)
    requires WellFormedAttrs(attrs)
    ensures WellFormedAttrs(attrs + [Txt(name), v]) && AttrMap(attrs + [Txt(name), v]) == AttrMap(attrs)[name := v]
  {
    assert (attrs + [Txt(name), v])[..|attrs|] == attrs;
  }

  /** With one more pair an attribute list names only live objects if both parts do. */
  lemma {:induction false} LiveNext(s: Store, attrs: seq<Value>, name: string, v: Value)
    ensures LiveFlat(s, attrs + [Txt(name), v]) <==> LiveFlat(s, attrs) && LiveV(s, v)
  {
    var one := attrs + [Txt(name)];
    assert attrs + [Txt(name), v] == one + [v] && (one + [v])[..|attrs| + 1] == one && one[..|attrs|] == attrs;
  }

  lemma {:induction false} LiveTwo(s: Store, m: string, v: Value, n: string, w: Value)
    ensures LiveFlat(s, [Txt(m), v, Txt(n), w]) <==> LiveV(s, v) && LiveV(s, w)
  {
    LiveNext(s, [], m, v);
    assert [] + [Txt(m), v] == [Txt(m), v];
    LiveNext(s, [Txt(m), v], n, w);
    assert [Txt(m), v] + [Txt(n), w] == [Txt(m), v, Txt(n), w];
  }

  lemma {:induction false} LiveThree(s: Store, m: string, v: Value, n: string, w: Value, k: string, x: Value)
    ensures LiveFlat(s, [Txt(m), v, Txt(n), w, Txt(k), x]) <==> LiveV(s, v) && LiveV(s, w) && LiveV(s, x)
  {
    LiveTwo(s, m, v, n, w);
    LiveNext(s, [Txt(m), v, Txt(n), w], k, x);
    assert [Txt(m), v, Txt(n), w] + [Txt(k), x] == [Txt(m), v, Txt(n), w, Txt(k), x];
  }

  lemma TwoPairs(m: string, v: Value, n: string, w: Value)
    ensures var attrs := [Txt(m), v, Txt(n), w];
      WellFormedAttrs(attrs) && AttrMap(attrs) == map[m := v][n := w]
  {
    AttrMapNext([], m, v);
    assert [] + [Txt(m), v] == [Txt(m), v];
    AttrMapNext([Txt(m), v], n, w);
    assert [Txt(m), v] + [Txt(n), w] == [Txt(m), v, Txt(n), w];
  }

  lemma ThreePairs(m: string, v: Value, n: string, w: Value, k: string, x: Value)
    ensures var attrs := [Txt(m), v, Txt(n), w, Txt(k), x];
      WellFormedAttrs(attrs) && AttrMap(attrs) == map[m := v][n := w][k := x]
  {
    TwoPairs(m, v, n, w);
    AttrMapNext([Txt(m), v, Txt(n), w], k, x);
    assert [Txt(m), v, Txt(n), w] + [Txt(k), x] == [Txt(m), v, Txt(n), w, Txt(k), x];
  }

  /** A type for which the switch creates nothing else. */
  predicate Lone(p: Profile, ty: ObjType) {
    CompanionsOf(p, ty) == Companions(map[], [])
  }

  lemma {:induction false} LoneCreate(p: Profile, d: Dev, ty: ObjType, attrs: seq<Value>)
    requires Lone(p, ty)
    ensures var o := Vid(ty, d.next);
      var status := CreateStatus(d.store, OidH(o), attrs);
      DevCreate(p, d, ty, attrs) ==
        (Dev(if status == Success then d.store[OidH(o) := AttrMap(attrs)] else d.store, d.next + 1), status, o)
  {
    var o := Vid(ty, d.next);
    var ids := IdsAt(p, Dev(d.store, d.next + 1), o);
    assert FillAll(ids, map[]) == map[];
    assert WithObject(p, d.store, ids, attrs) == d.store[OidH(o) := AttrMap(attrs) + map[]];
    assert AttrMap(attrs) + map[] == AttrMap(attrs);
  }
}
