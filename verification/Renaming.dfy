/**
  Renaming of OIDs: two stores are the same configuration when one is the image of the other
  under an injective, type-preserving map of OIDs that keeps the null OID.  Every store
  operation commutes with such a renaming.
 */
module Renaming {
  import opened Wrappers
  import opened SaiStore

  type Ren = map<Oid, Oid>

  /** Named so that a proof can say which pair of OIDs it needs kept apart. */
  ghost predicate Apart(b: Ren, o: Oid, p: Oid) {
    o in b && p in b && b[o] == b[p] ==> o == p
  }

  ghost predicate Bij(b: Ren) {
    && Null in b && b[Null] == Null
    && (forall o, p :: Apart(b, o, p))
    && (forall o | o in b && o.Vid? :: b[o].Vid? && b[o].ty == o.ty)
  }

  /** `c` agrees with `b` wherever `b` is defined. */
  ghost predicate Grows(b: Ren, c: Ren) {
    b.Keys <= c.Keys && forall o | o in b :: c[o] == b[o]
  }

  function RenO(b: Ren, o: Oid): Oid {
    if o in b then b[o] else o
  }

  function RenV(b: Ren, v: Value): Value {
    match v
    case Ref(o) => Ref(RenO(b, o))
    case RefList(os) => RefList(seq(|os|, i requires 0 <= i < |os| => RenO(b, os[i])))
    case Dict(f) => Dict(RenF(b, f))
    case Txt(_) => v
    case Sym(_) => v
  }

  function RenF(b: Ren, f: Fields): Fields {
    match f
    case NoFields => NoFields
    case Field(n, v, rest) => Field(n, RenV(b, v), RenF(b, rest))
  }

  function RenH(b: Ren, h: Handle): Handle {
    match h
    case OidH(o) => OidH(RenO(b, o))
    case EntryH(ty, key) => EntryH(ty, RenF(b, key))
  }

  function RenA(b: Ren, a: Attrs): Attrs {
    map k | k in a :: RenV(b, a[k])
  }

  function RenFlat(b: Ren, flat: seq<Value>): (r: seq<Value>)
    ensures |r| == |flat|
  {
    seq(|flat|, i requires 0 <= i < |flat| => RenV(b, flat[i]))
  }

  // ---------- what a map must cover ----------

  ghost predicate KnownV(b: Ren, v: Value) {
    match v
    case Ref(o) => o in b
    case RefList(os) => forall i | 0 <= i < |os| :: os[i] in b
    case Dict(f) => KnownF(b, f)
    case Txt(_) => true
    case Sym(_) => true
  }

  ghost predicate KnownF(b: Ren, f: Fields) {
    match f
    case NoFields => true
    case Field(_, v, rest) => KnownV(b, v) && KnownF(b, rest)
  }

  ghost predicate KnownA(b: Ren, a: Attrs) {
    forall k | k in a :: KnownV(b, a[k])
  }

  ghost predicate KnownFlat(b: Ren, flat: seq<Value>) {
    forall i | 0 <= i < |flat| :: KnownV(b, flat[i])
  }

  ghost predicate KnownH(b: Ren, h: Handle) {
    match h
    case OidH(o) => o in b
    case EntryH(_, key) => KnownF(b, key)
  }

  ghost predicate Carried(b: Ren, s: Store, t: Store, h: Handle) {
    h in s ==>
      && KnownH(b, h) && KnownA(b, s[h])
      && RenH(b, h) in t && t[RenH(b, h)] == RenA(b, s[h])
  }

  ghost predicate Covered(b: Ren, s: Store, t: Store, g: Handle) {
    g in t ==> exists h :: h in s && g == RenH(b, h)
  }

  /** `t` is `s` with every OID replaced by its image. */
  ghost predicate Renamed(b: Ren, s: Store, t: Store) {
    && (forall h :: Carried(b, s, t, h))
    && (forall g :: Covered(b, s, t, g))
  }

  // ---------- values ----------

  lemma {:induction false} MentionsOfRenV(b: Ren, v: Value, o: Oid)
    requires Bij(b) && KnownV(b, v) && o in b
    ensures MentionsV(RenV(b, v), b[o]) <==> MentionsV(v, o)
  {
    match v
    case Ref(p) => assert Apart(b, p, o);
    case RefList(os) =>
      var r := RenV(b, v).oids;
      if b[o] in r {
        var i :| 0 <= i < |r| && r[i] == b[o];
        assert Apart(b, os[i], o);
      }
      if o in os {
        var i :| 0 <= i < |os| && os[i] == o;
        assert r[i] == b[o];
      }
    case Dict(f) => MentionsOfRenF(b, f, o);
    case Txt(_) =>
    case Sym(_) =>
  }

  lemma {:induction false} MentionsOfRenF(b: Ren, f: Fields, o: Oid)
    requires Bij(b) && KnownF(b, f) && o in b
    ensures MentionsF(RenF(b, f), b[o]) <==> MentionsF(f, o)
  {
    match f
    case NoFields =>
    case Field(_, v, rest) =>
      MentionsOfRenV(b, v, o);
      MentionsOfRenF(b, rest, o);
  }

  lemma MentionsOfRenA(b: Ren, a: Attrs, o: Oid)
    requires Bij(b) && KnownA(b, a) && o in b
    ensures MentionsA(RenA(b, a), b[o]) <==> MentionsA(a, o)
  {
    forall k | k in a ensures MentionsV(RenA(b, a)[k], b[o]) <==> MentionsV(a[k], o) {
      MentionsOfRenV(b, a[k], o);
    }
  }

  lemma {:induction false} RenInjectiveV(b: Ren, v: Value, w: Value)
    requires Bij(b) && KnownV(b, v) && KnownV(b, w)
    requires RenV(b, v) == RenV(b, w)
    ensures v == w
  {
    match v
    case Ref(o) => assert Apart(b, o, w.oid);
    case RefList(os) =>
      var ps := w.oids;
      var r, q := RenV(b, v).oids, RenV(b, w).oids;
      assert |os| == |r| == |q| == |ps|;
      forall i | 0 <= i < |os| ensures os[i] == ps[i] {
        assert r[i] == q[i];
        assert Apart(b, os[i], ps[i]);
      }
    case Dict(f) => RenInjectiveF(b, f, w.fields);
    case Txt(_) =>
    case Sym(_) =>
  }

  lemma {:induction false} RenInjectiveF(b: Ren, f: Fields, g: Fields)
    requires Bij(b) && KnownF(b, f) && KnownF(b, g)
    requires RenF(b, f) == RenF(b, g)
    ensures f == g
  {
    match f
    case NoFields =>
    case Field(_, v, rest) =>
      RenInjectiveV(b, v, g.val);
      RenInjectiveF(b, rest, g.rest);
  }

  lemma RenInjectiveH(b: Ren, h: Handle, g: Handle)
    requires Bij(b) && KnownH(b, h) && KnownH(b, g)
    requires RenH(b, h) == RenH(b, g)
    ensures h == g
  {
    if h.EntryH? { RenInjectiveF(b, h.key, g.key); } else { assert Apart(b, h.oid, g.oid); }
  }

  // ---------- attribute lists ----------

  lemma {:induction false} KnownAttrMap(b: Ren, flat: seq<Value>)
    requires KnownFlat(b, flat)
    ensures KnownA(b, AttrMap(flat))
  {
    if |flat| >= 2 { KnownAttrMap(b, flat[..|flat| - 2]); }
  }

  lemma {:induction false} AttrMapOfRen(b: Ren, flat: seq<Value>)
    requires WellFormedAttrs(flat)
    ensures AttrMap(RenFlat(b, flat)) == RenA(b, AttrMap(flat))
  {
    if |flat| >= 2 {
      var pre := flat[..|flat| - 2];
      AttrMapOfRen(b, pre);
      assert RenFlat(b, flat)[..|flat| - 2] == RenFlat(b, pre);
    }
  }

  lemma {:induction false} WellFormedOfRen(b: Ren, flat: seq<Value>)
    ensures WellFormedAttrs(RenFlat(b, flat)) <==> WellFormedAttrs(flat)
  {
    if |flat| >= 2 {
      WellFormedOfRen(b, flat[..|flat| - 2]);
      assert RenFlat(b, flat)[..|flat| - 2] == RenFlat(b, flat[..|flat| - 2]);
    }
  }

  // ---------- stores ----------

  lemma RenamedLive(b: Ren, s: Store, t: Store, o: Oid)
    requires Bij(b) && Renamed(b, s, t) && o in b
    ensures Live(s, o) <==> Live(t, b[o])
  {
    assert Carried(b, s, t, OidH(o)) && Covered(b, s, t, OidH(b[o]));
    if Live(t, b[o]) {
      var h :| h in s && OidH(b[o]) == RenH(b, h);
      assert Carried(b, s, t, h) && Apart(b, h.oid, o);
    }
  }

  lemma {:induction false} RenamedLiveV(b: Ren, s: Store, t: Store, v: Value)
    requires Bij(b) && Renamed(b, s, t) && KnownV(b, v)
    ensures LiveV(t, RenV(b, v)) <==> LiveV(s, v)
  {
    match v
    case Ref(o) =>
      RenamedLive(b, s, t, o);
      assert Apart(b, o, Null);
    case RefList(os) =>
      var r := RenV(b, v).oids;
      forall i | 0 <= i < |os| ensures (r[i].Null? || Live(t, r[i])) <==> (os[i].Null? || Live(s, os[i])) {
        RenamedLive(b, s, t, os[i]);
        assert Apart(b, os[i], Null);
      }
    case Dict(f) => RenamedLiveF(b, s, t, f);
    case Txt(_) =>
    case Sym(_) =>
  }

  lemma {:induction false} RenamedLiveF(b: Ren, s: Store, t: Store, f: Fields)
    requires Bij(b) && Renamed(b, s, t) && KnownF(b, f)
    ensures LiveF(t, RenF(b, f)) <==> LiveF(s, f)
  {
    match f
    case NoFields =>
    case Field(_, v, rest) =>
      RenamedLiveV(b, s, t, v);
      RenamedLiveF(b, s, t, rest);
  }

  lemma {:induction false} RenamedLiveFlat(b: Ren, s: Store, t: Store, flat: seq<Value>)
    requires Bij(b) && Renamed(b, s, t) && KnownFlat(b, flat)
    ensures LiveFlat(t, RenFlat(b, flat)) <==> LiveFlat(s, flat)
  {
    if |flat| > 0 {
      var n := |flat| - 1;
      RenamedLiveV(b, s, t, flat[n]);
      RenamedLiveFlat(b, s, t, flat[..n]);
      assert RenFlat(b, flat)[..n] == RenFlat(b, flat[..n]);
    }
  }

  lemma RenamedIn(b: Ren, s: Store, t: Store, h: Handle)
    requires Bij(b) && Renamed(b, s, t) && KnownH(b, h)
    ensures h in s <==> RenH(b, h) in t
  {
    assert Carried(b, s, t, h) && Covered(b, s, t, RenH(b, h));
    if RenH(b, h) in t {
      var g :| g in s && RenH(b, h) == RenH(b, g);
      assert Carried(b, s, t, g);
      RenInjectiveH(b, h, g);
    }
  }

  lemma RenamedRefers(b: Ren, s: Store, t: Store, h: Handle, o: Oid)
    requires Bij(b) && Renamed(b, s, t) && h in s && o in b
    ensures RenH(b, h) in t
    ensures Refers(s, h, o) <==> Refers(t, RenH(b, h), b[o])
  {
    assert Carried(b, s, t, h);
    if h.EntryH? { MentionsOfRenF(b, h.key, o); }
    MentionsOfRenA(b, s[h], o);
  }

  lemma RenamedInUse(b: Ren, s: Store, t: Store, o: Oid)
    requires Bij(b) && Renamed(b, s, t) && o in b
    ensures InUse(s, o) <==> InUse(t, b[o])
  {
    forall h | h in s ensures RenH(b, h) in t && (Refers(s, h, o) <==> Refers(t, RenH(b, h), b[o])) {
      RenamedRefers(b, s, t, h, o);
    }
    if InUse(t, b[o]) {
      var g :| g in t && Refers(t, g, b[o]);
      assert Covered(b, s, t, g);
      var h :| h in s && g == RenH(b, h);
      assert Refers(s, h, o);
    }
  }

  lemma RenamedUpdate(b: Ren, s: Store, t: Store, h: Handle, a: Attrs)
    requires Bij(b) && Renamed(b, s, t) && KnownH(b, h) && KnownA(b, a)
    ensures Renamed(b, s[h := a], t[RenH(b, h) := RenA(b, a)])
  {
    var k := RenH(b, h);
    var s', t' := s[h := a], t[k := RenA(b, a)];
    forall g ensures Carried(b, s', t', g) {
      assert Carried(b, s, t, g);
      if g in s && g != h && RenH(b, g) == k { RenInjectiveH(b, g, h); }
    }
    forall g ensures Covered(b, s', t', g) {
      assert Covered(b, s, t, g);
      if g == k {
        assert h in s' && g == RenH(b, h);
      } else if g in t' {
        var x :| x in s && g == RenH(b, x);
        assert x in s' && g == RenH(b, x);
      }
    }
  }

  lemma RenamedRemove(b: Ren, s: Store, t: Store, h: Handle)
    requires Bij(b) && Renamed(b, s, t) && h in s
    ensures Renamed(b, s - {h}, t - {RenH(b, h)})
  {
    var s', t' := s - {h}, t - {RenH(b, h)};
    assert Carried(b, s, t, h);
    forall g ensures Carried(b, s', t', g) {
      assert Carried(b, s, t, g);
      if g in s' && RenH(b, g) == RenH(b, h) { RenInjectiveH(b, g, h); }
    }
    forall g ensures Covered(b, s', t', g) {
      assert Covered(b, s, t, g);
      if g in t' {
        var x :| x in s && g == RenH(b, x);
        assert x in s' && g == RenH(b, x);
      }
    }
  }

  /** Enlarging the map changes nothing that was already renamed. */
  lemma {:induction false} RenExtendsV(b: Ren, c: Ren, v: Value)
    requires Grows(b, c) && KnownV(b, v)
    ensures RenV(c, v) == RenV(b, v) && KnownV(c, v)
  {
    match v
    case Dict(f) => RenExtendsF(b, c, f);
    case RefList(_) =>
    case Ref(_) =>
    case Txt(_) =>
    case Sym(_) =>
  }

  lemma {:induction false} RenExtendsF(b: Ren, c: Ren, f: Fields)
    requires Grows(b, c) && KnownF(b, f)
    ensures RenF(c, f) == RenF(b, f) && KnownF(c, f)
  {
    match f
    case NoFields =>
    case Field(_, v, rest) =>
      RenExtendsV(b, c, v);
      RenExtendsF(b, c, rest);
  }

  lemma RenExtendsA(b: Ren, c: Ren, a: Attrs)
    requires Grows(b, c) && KnownA(b, a)
    ensures RenA(c, a) == RenA(b, a) && KnownA(c, a)
  {
    forall k | k in a ensures RenV(c, a[k]) == RenV(b, a[k]) && KnownV(c, a[k]) { RenExtendsV(b, c, a[k]); }
  }

  lemma RenExtendsFlat(b: Ren, c: Ren, flat: seq<Value>)
    requires Grows(b, c) && KnownFlat(b, flat)
    ensures RenFlat(c, flat) == RenFlat(b, flat) && KnownFlat(c, flat)
  {
    forall i | 0 <= i < |flat| ensures RenV(c, flat[i]) == RenV(b, flat[i]) && KnownV(c, flat[i]) {
      RenExtendsV(b, c, flat[i]);
    }
  }

  lemma RenamedExtends(b: Ren, c: Ren, s: Store, t: Store)
    requires Grows(b, c) && Renamed(b, s, t)
    ensures Renamed(c, s, t)
  {
    forall h ensures Carried(c, s, t, h) && (h in s ==> RenH(c, h) == RenH(b, h)) {
      assert Carried(b, s, t, h);
      if h in s {
        if h.EntryH? { RenExtendsF(b, c, h.key); }
        RenExtendsA(b, c, s[h]);
      }
    }
    forall g ensures Covered(c, s, t, g) {
      assert Covered(b, s, t, g);
      if g in t {
        var h :| h in s && g == RenH(b, h);
        assert h in s && g == RenH(c, h);
      }
    }
  }

  // ---------- operations commute with renaming ----------

  lemma CreateStatusCommutes(b: Ren, s: Store, t: Store, h: Handle, attrs: seq<Value>)
    requires Bij(b) && Renamed(b, s, t) && KnownH(b, h) && KnownFlat(b, attrs)
    ensures CreateStatus(t, RenH(b, h), RenFlat(b, attrs)) == CreateStatus(s, h, attrs)
  {
    WellFormedOfRen(b, attrs);
    RenamedIn(b, s, t, h);
    if h.EntryH? { RenamedLiveF(b, s, t, h.key); }
    RenamedLiveFlat(b, s, t, attrs);
  }

  lemma {:induction false} CreateEntryCommutes(b: Ren, s: Store, t: Store, ty: ObjType, key: Fields, attrs: seq<Value>)
    requires Bij(b) && Renamed(b, s, t) && KnownF(b, key) && KnownFlat(b, attrs)
    ensures CreateEntry(t, ty, RenF(b, key), RenFlat(b, attrs)).0 == CreateEntry(s, ty, key, attrs).0
    ensures Renamed(b, CreateEntry(s, ty, key, attrs).1, CreateEntry(t, ty, RenF(b, key), RenFlat(b, attrs)).1)
  {
    var h := EntryH(ty, key);
    CreateStatusCommutes(b, s, t, h, attrs);
    if CreateStatus(s, h, attrs) == Success {
      AttrMapOfRen(b, attrs);
      KnownAttrMap(b, attrs);
      RenamedUpdate(b, s, t, h, AttrMap(attrs));
    }
  }

  lemma RemoveCommutes(b: Ren, s: Store, t: Store, h: Handle)
    requires Bij(b) && Renamed(b, s, t) && KnownH(b, h)
    ensures RemoveObj(t, RenH(b, h)).0 == RemoveObj(s, h).0
    ensures Renamed(b, RemoveObj(s, h).1, RemoveObj(t, RenH(b, h)).1)
  {
    RenamedIn(b, s, t, h);
    if h in s {
      if h.OidH? { RenamedInUse(b, s, t, h.oid); }
      RenamedRemove(b, s, t, h);
    }
  }

  lemma SetCommutes(b: Ren, s: Store, t: Store, h: Handle, attr: seq<Value>)
    requires Bij(b) && Renamed(b, s, t) && KnownH(b, h) && KnownFlat(b, attr)
    ensures SetAttr(t, RenH(b, h), RenFlat(b, attr)).0 == SetAttr(s, h, attr).0
    ensures Renamed(b, SetAttr(s, h, attr).1, SetAttr(t, RenH(b, h), RenFlat(b, attr)).1)
  {
    RenamedIn(b, s, t, h);
    assert Carried(b, s, t, h);
    WellFormedOfRen(b, attr);
    if h in s && |attr| == 2 && WellFormedAttrs(attr) {
      RenamedLiveV(b, s, t, attr[1]);
      var a := s[h][attr[0].text := attr[1]];
      assert RenA(b, a) == RenA(b, s[h])[attr[0].text := RenV(b, attr[1])];
      RenamedUpdate(b, s, t, h, a);
    }
  }

  lemma {:induction false} ReadAllCommutes(b: Ren, a: Attrs, req: seq<Value>)
    ensures ReadAll(RenA(b, a), req).0 == ReadAll(a, req).0
    ensures ReadAll(RenA(b, a), req).1 == RenFlat(b, ReadAll(a, req).1)
    decreases |req|
  {
    if |req| >= 2 {
      ReadAllCommutes(b, a, req[..|req| - 2]);
    }
  }

  /** Reading asks for names and buffers only, so the same request reads the renamed values. */
  lemma GetCommutes(b: Ren, s: Store, t: Store, h: Handle, req: seq<Value>)
    requires Bij(b) && Renamed(b, s, t) && KnownH(b, h)
    ensures GetAttrs(t, RenH(b, h), req).0 == GetAttrs(s, h, req).0
    ensures GetAttrs(t, RenH(b, h), req).1 == RenFlat(b, GetAttrs(s, h, req).1)
  {
    RenamedIn(b, s, t, h);
    assert Carried(b, s, t, h);
    if h in s { ReadAllCommutes(b, s[h], req); }
  }

  // ---------- creating an object with its companions ----------

  ghost predicate Fresh(used: set<Oid>, ids: seq<Oid>) {
    && (forall i | 0 <= i < |ids| :: ids[i].Vid? && ids[i] !in used)
    && (forall i, j | 0 <= i < j < |ids| :: ids[i] != ids[j])
  }

  ghost predicate SameTypes(ids: seq<Oid>, ids': seq<Oid>) {
    && |ids| == |ids'|
    && (forall i | 0 <= i < |ids| :: ids[i].Vid? && ids'[i].Vid? && ids[i].ty == ids'[i].ty)
  }

  ghost function Extend(b: Ren, ids: seq<Oid>, ids': seq<Oid>): Ren
    requires |ids| == |ids'|
  {
    if |ids| == 0 then b
    else Extend(b, ids[..|ids| - 1], ids'[..|ids| - 1])[ids[|ids| - 1] := ids'[|ids| - 1]]
  }

  lemma {:induction false} ExtendLookup(b: Ren, ids: seq<Oid>, ids': seq<Oid>)
    requires |ids| == |ids'| && Fresh(b.Keys, ids)
    ensures forall o :: o in Extend(b, ids, ids') <==> o in b || o in ids
    ensures Grows(b, Extend(b, ids, ids'))
    ensures forall i | 0 <= i < |ids| :: ids[i] in Extend(b, ids, ids') && Extend(b, ids, ids')[ids[i]] == ids'[i]
  {
    var n := |ids| - 1;
    if n >= 0 {
      var p, p', x := ids[..n], ids'[..n], ids[n];
      assert Fresh(b.Keys, p);
      ExtendLookup(b, p, p');
      var c := Extend(b, p, p');
      assert ids == p + [x] && x !in b && x !in p;
      forall i | 0 <= i < n ensures ids[i] in c && c[ids[i]] == ids'[i] && ids[i] != x {
        assert p[i] in c && c[p[i]] == p'[i];
      }
    }
  }

  lemma {:induction false} ExtendIsBij(b: Ren, ids: seq<Oid>, ids': seq<Oid>)
    requires Bij(b) && SameTypes(ids, ids') && Fresh(b.Keys, ids) && Fresh(b.Values, ids')
    ensures Bij(Extend(b, ids, ids'))
  {
    ExtendLookup(b, ids, ids');
    var e := Extend(b, ids, ids');
    forall o | o in e && o !in b ensures exists i :: 0 <= i < |ids| && ids[i] == o && e[o] == ids'[i] {
      var i :| 0 <= i < |ids| && ids[i] == o;
      assert e[ids[i]] == ids'[i];
    }
    forall o, q ensures Apart(e, o, q) {
      if o in b && q in b {
        assert Apart(b, o, q);
      } else if o in e && q in e && e[o] == e[q] && o !in b && q !in b {
        var i :| 0 <= i < |ids| && ids[i] == o && e[o] == ids'[i];
        var j :| 0 <= j < |ids| && ids[j] == q && e[q] == ids'[j];
      }
    }
  }

  lemma FillCommutes(b: Ren, ids: seq<Oid>, ids': seq<Oid>, m: map<string, Slot>)
    requires Bij(b) && |ids| == |ids'|
    requires forall i | 0 <= i < |ids| :: ids[i] in b && b[ids[i]] == ids'[i]
    ensures RenA(b, FillAll(ids, m)) == FillAll(ids', m)
    ensures KnownA(b, FillAll(ids, m))
  {
    forall k | k in m ensures RenV(b, Fill(ids, m[k])) == Fill(ids', m[k]) && KnownV(b, Fill(ids, m[k])) {
      assert forall i: nat :: SlotOid(ids, i) in b && b[SlotOid(ids, i)] == SlotOid(ids', i);
    }
  }

  /** The id list an object of this type and its companions need. */
  ghost predicate IdsFor(p: Profile, ids: seq<Oid>) {
    && |ids| > 0 && ids[0].Vid?
    && var extras := CompanionsOf(p, ids[0].ty).extras;
       && |ids| == 1 + |extras|
       && forall i | 1 <= i < |ids| :: ids[i].Vid? && ids[i].ty == extras[i - 1].ty
  }

  lemma {:induction false} NewObjectCommutes(b: Ren, s: Store, t: Store, ids: seq<Oid>, ids': seq<Oid>, c: Companions, attrs: seq<Value>, n: nat)
    requires Bij(b) && Renamed(b, s, t) && KnownFlat(b, attrs) && WellFormedAttrs(attrs)
    requires |ids| == |ids'| == 1 + |c.extras| && n <= |c.extras|
    requires forall i | 0 <= i < |ids| :: ids[i] in b && b[ids[i]] == ids'[i]
    ensures Renamed(b, NewObject(s, ids, c, attrs, n), NewObject(t, ids', c, RenFlat(b, attrs), n))
  {
    if n == 0 {
      AttrMapOfRen(b, attrs);
      KnownAttrMap(b, attrs);
      FillCommutes(b, ids, ids', c.self);
      var a := AttrMap(attrs) + FillAll(ids, c.self);
      assert RenA(b, a) == RenA(b, AttrMap(attrs)) + FillAll(ids', c.self);
      RenamedUpdate(b, s, t, OidH(ids[0]), a);
    } else {
      NewObjectCommutes(b, s, t, ids, ids', c, attrs, n - 1);
      FillCommutes(b, ids, ids', c.extras[n - 1].attrs);
      RenamedUpdate(b, NewObject(s, ids, c, attrs, n - 1), NewObject(t, ids', c, RenFlat(b, attrs), n - 1),
        OidH(ids[n]), FillAll(ids, c.extras[n - 1].attrs));
    }
  }
}
