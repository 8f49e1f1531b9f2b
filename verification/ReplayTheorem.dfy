/** The step lemmas of the simulation and its main theorems. */
module ReplayTheorem {
  import opened Wrappers
  import opened SaiStore
  import opened Renaming
  import opened ReplaySpec
  import opened ReplayKeys
  import opened ReplaySim

  /** Where both are defined, the later renaming is the earlier one. */
  ghost predicate Agree(b: Ren, c: Ren) {
    forall o | o in b && o in c :: c[o] == b[o]
  }

  // ---------- creating objects ----------

  lemma LiveIdsFresh(p: Profile, b: Ren, d: Dev, ty: ObjType, k: nat, hi: nat)
    requires Avoids(b, d.next, k, hi) && k < hi <= d.next
    ensures Fresh(b.Values, IdsAt(p, d, Vid(ty, k))) && IdsFor(p, IdsAt(p, d, Vid(ty, k)))
  {
    var ids := IdsAt(p, d, Vid(ty, k));
    forall i | 0 <= i < |ids| ensures ids[i].Vid? && ids[i] !in b.Values {
      assert i > 0 ==> ids[i].num >= d.next;
      forall o | o in b ensures b[o] != ids[i] { assert Outside(b, o, d.next, k, hi); }
    }
  }

  lemma {:induction false} ExtendAvoids(p: Profile, b: Ren, d: Dev, ty: ObjType, k: nat, hi: nat, ids: seq<Oid>)
    requires Avoids(b, d.next, k, hi) && k < hi <= d.next
    requires |ids| == |IdsAt(p, d, Vid(ty, k))| && Fresh(b.Keys, ids)
    ensures Avoids(Extend(b, ids, IdsAt(p, d, Vid(ty, k))), d.next + |CompanionsOf(p, ty).extras|, k + 1, hi)
  {
    var ids' := IdsAt(p, d, Vid(ty, k));
    ExtendLookup(b, ids, ids');
    var c := Extend(b, ids, ids');
    var next, lo := d.next + |ids| - 1, k + 1;
    forall o ensures Outside(c, o, next, lo, hi) {
      assert Outside(b, o, d.next, k, hi);
      if o in c && o !in b {
        var i :| 0 <= i < |ids| && ids[i] == o;
        assert c[o] == ids'[i];
        assert i > 0 ==> d.next <= ids'[i].num < d.next + |ids| - 1;
      }
    }
  }

  /** Created on the live switch `d`, whose store then corresponds to the recorded store `s`. */
  ghost predicate Made(c: Ren, s: Store, d: Dev, lo: nat, hi: nat) {
    Stores(c, s, d.store) && Avoids(c, d.next, lo, hi) && hi <= d.next
  }

  lemma DevCreateSimulates(p: Profile, b: Ren, s: Store, d: Dev, ty: ObjType, k: nat, hi: nat, ids: seq<Oid>, attrs: seq<Value>)
    returns (c: Ren)
    requires Made(b, s, d, k, hi) && k < hi
    requires ValidIds(p, s, ids) && ids[0].ty == ty && KnownFlat(b, attrs)
    ensures CreateStatus(d.store, OidH(Vid(ty, k)), RenFlat(b, attrs)) == CreateStatus(s, OidH(ids[0]), attrs)
    ensures CreateStatus(s, OidH(ids[0]), attrs) == Success ==>
      Made(c, WithObject(p, s, ids, attrs), DevWith(p, d, Vid(ty, k), RenFlat(b, attrs)), k + 1, hi)
    ensures Grows(b, c) && ids[0] in c && c[ids[0]] == Vid(ty, k)
  {
    var ids' := IdsAt(p, d, Vid(ty, k));
    LiveIdsFresh(p, b, d, ty, k, hi);
    IdsForSameTypes(p, ids, ids');
    FreshKeys(b, s, d.store, ids);
    c := Extend(b, ids, ids');
    ExtendAvoids(p, b, d, ty, k, hi, ids);
    ExtendLookup(b, ids, ids');
    CreateSimulates(p, b, s, d.store, ids, ids', attrs);
    assert c[ids[0]] == ids'[0];
  }

  // ---------- rec2vid ----------

  lemma AgreesGrows(m: Rec2Vid, known: set<Value>, b: Ren, c: Ren)
    requires Agrees(m, known, b) && Grows(b, c)
    ensures Agrees(m, known, c)
  {
    forall v ensures Names(m, c, v) { assert Names(m, b, v); }
  }

  lemma AgreesWithOne(m: Rec2Vid, known: set<Value>, b: Ren, o: Oid)
    requires Agrees(m, known, b) && o in b
    ensures Agrees(m[Ref(o) := Ref(b[o])], known + {Ref(o)}, b)
  {
    var m' := m[Ref(o) := Ref(b[o])];
    forall v ensures Names(m', b, v) { assert Names(m, b, v); }
  }

  lemma AgreesWithEntry(m: Rec2Vid, known: set<Value>, b: Ren, f: Fields, f': Fields)
    requires Agrees(m, known, b)
    ensures Agrees(m[Dict(f) := Dict(f')], known + {Dict(f)}, b)
  {
    var m' := m[Dict(f) := Dict(f')];
    forall v ensures Names(m', b, v) { assert Names(m, b, v); }
  }

  lemma AgreesWithout(m: Rec2Vid, known: set<Value>, b: Ren, o: Oid)
    requires Agrees(m, known, b)
    ensures Agrees(m - {Ref(o)}, known - {Ref(o)}, b - {o})
  {
    var m', c := m - {Ref(o)}, b - {o};
    forall v ensures Names(m', c, v) { assert Names(m, b, v); }
  }

  lemma {:induction false} LearnAgrees(m: Rec2Vid, known: set<Value>, b: Ren, os: seq<Oid>)
    requires Agrees(m, known, b) && KnownSeq(b, os)
    ensures Agrees(Learn(m, os, RenSeq(b, os)), Learned(known, os), b)
  {
    if |os| > 0 {
      var n := |os| - 1;
      LearnAgrees(m, known, b, os[..n]);
      assert RenSeq(b, os)[..n] == RenSeq(b, os[..n]);
      AgreesWithOne(Learn(m, os[..n], RenSeq(b, os[..n])), Learned(known, os[..n]), b, os[n]);
    }
  }

  lemma KnownSeqGrows(b: Ren, c: Ren, os: seq<Oid>)
    requires Grows(b, c) && KnownSeq(b, os)
    ensures RenSeq(c, os) == RenSeq(b, os) && KnownSeq(c, os)
  {
  }

  // ---------- one lemma per kind of record ----------

  lemma SameStatus(b: Ren, r: Recorded, st: State, status: Status)
    requires Sim(b, r, st)
    ensures Sim(b, r.(status := Some(status)), st.(status := Some(status)))
  {
  }

  /** A refused create still uses up one id. */
  lemma SkippedId(b: Ren, r: Recorded, st: State, status: Status)
    requires Sim(b, r, st)
    ensures Sim(b, r.(status := Some(status)), st.(dev := Dev(st.dev.store, st.dev.next + 1), status := Some(status)))
  {
    var next := st.dev.next + 1;
    forall o ensures Outside(b, o, next, next, next) {
      assert Outside(b, o, st.dev.next, st.dev.next, st.dev.next);
    }
  }

  lemma NamedObject(b: Ren, c: Ren, r: Recorded, st: State, o: Oid, s: Store, d: Dev)
    requires Sim(b, r, st) && Stores(c, s, d.store) && Below(c, d.next) && Grows(b, c) && o in c && c[o].Vid?
    ensures Sim(c, RecNamed(r, o, s), Named(st, o, c[o], d))
  {
    AgreesGrows(st.rec2vid, r.known, b, c);
    AgreesWithOne(st.rec2vid, r.known, c, o);
    KnownSeqGrows(b, c, r.pend);
  }

  lemma CreateObjectSim(p: Profile, b: Ren, r: Recorded, st: State, o: Oid, attrs: seq<Value>, hidden: seq<seq<Oid>>) returns (c: Ren)
    requires Sim(b, r, st) && Plain(attrs) && RecCreateObject(p, r, o, attrs, hidden).Some?
    ensures CreateStep(p, st, OidH(o), attrs).Some? <==> AttrsResolvable(r.known, attrs, false)
    ensures AttrsResolvable(r.known, attrs, false) ==>
      Sim(c, RecCreateObject(p, r, o, attrs, hidden).value, CreateStep(p, st, OidH(o), attrs).value)
    ensures Grows(b, c)
  {
    c := b;
    RewriteAttrsIsRenaming(st.rec2vid, r.known, b, attrs, false);
    if AttrsResolvable(r.known, attrs, false) {
      var c', d := AcceptedCreate(p, b, r, st, o, attrs, [o] + hidden[0]);
      CreateParts(p, st, o, attrs, RenFlat(b, attrs));
      if CreateStatus(r.store, OidH(o), attrs) == Success {
        c := c';
      } else {
        SkippedId(b, r, st, CreateStatus(r.store, OidH(o), attrs));
      }
    }
  }

  lemma {:induction false} CreateParts(p: Profile, st: State, o: Oid, attrs: seq<Value>, attrs': seq<Value>)
    requires o.Vid? && RewriteAttrs(st.rec2vid, attrs, false) == Some(attrs')
    ensures var own, d0 := Vid(o.ty, st.dev.next), Dev(st.dev.store, st.dev.next + 1);
            var status := CreateStatus(st.dev.store, OidH(own), attrs');
      CreateStep(p, st, OidH(o), attrs) ==
        Some(if status == Success then Named(st, o, own, DevWith(p, d0, own, attrs')) else st.(dev := d0, status := Some(status)))
  {
  }

  lemma AcceptedCreate(p: Profile, b: Ren, r: Recorded, st: State, o: Oid, attrs: seq<Value>, ids: seq<Oid>) returns (c: Ren, d: Dev)
    requires Sim(b, r, st) && KnownFlat(b, attrs) && ValidIds(p, r.store, ids) && ids[0] == o
    ensures var own, d0 := Vid(o.ty, st.dev.next), Dev(st.dev.store, st.dev.next + 1);
      && d == DevWith(p, d0, own, RenFlat(b, attrs))
      && CreateStatus(st.dev.store, OidH(own), RenFlat(b, attrs)) == CreateStatus(r.store, OidH(o), attrs)
      && (CreateStatus(r.store, OidH(o), attrs) == Success ==>
           Sim(c, RecNamed(r, o, WithObject(p, r.store, ids, attrs)), Named(st, o, own, d)))
    ensures Grows(b, c)
  {
    var next := st.dev.next;
    var d0 := Dev(st.dev.store, next + 1);
    MadeNone(b, r.store, st.dev, 1);
    c := DevCreateSimulates(p, b, r.store, d0, o.ty, next, next + 1, ids, attrs);
    d := DevWith(p, d0, Vid(o.ty, next), RenFlat(b, attrs));
    if CreateStatus(r.store, OidH(o), attrs) == Success {
      MadeAll(c, WithObject(p, r.store, ids, attrs), d, next + 1);
      NamedObject(b, c, r, st, o, WithObject(p, r.store, ids, attrs), d);
    }
  }

  lemma ChangedStores(b: Ren, r: Recorded, st: State, s: Store, t: Store)
    requires Sim(b, r, st) && Stores(b, s, t)
    ensures Sim(b, r.(store := s), st.(dev := st.dev.(store := t)))
  {
  }

  lemma NamedEntry(b: Ren, r: Recorded, st: State, f: Fields, f': Fields, status: Status)
    requires Sim(b, r, st)
    ensures Sim(b, r.(status := Some(status), known := r.known + {Dict(f)}),
                st.(rec2vid := st.rec2vid[Dict(f) := Dict(f')], status := Some(status)))
  {
    AgreesWithEntry(st.rec2vid, r.known, b, f, f');
  }

  lemma CreateEntrySim(p: Profile, b: Ren, r: Recorded, st: State, ty: ObjType, f: Fields, attrs: seq<Value>)
    requires Sim(b, r, st) && Plain(attrs)
    ensures CreateStep(p, st, EntryH(ty, f), attrs).Some? <==> Resolvable(r.known, Create(EntryH(ty, f), attrs))
    ensures Resolvable(r.known, Create(EntryH(ty, f), attrs)) && CleanKey(st.rec2vid, f) ==>
      Sim(b, RecCreateEntry(r, ty, f, attrs), CreateStep(p, st, EntryH(ty, f), attrs).value)
  {
    RewriteAttrsIsRenaming(st.rec2vid, r.known, b, attrs, false);
    RewriteFieldsIsRenaming(st.rec2vid, r.known, b, f);
    if Resolvable(r.known, Create(EntryH(ty, f), attrs)) && CleanKey(st.rec2vid, f) {
      var t, f', attrs' := st.dev.store, RenF(b, f), RenFlat(b, attrs);
      CreateEntryStores(b, r.store, t, ty, f, attrs);
      var (status, s1) := CreateEntry(r.store, ty, f, attrs);
      var t1 := CreateEntry(t, ty, f', attrs').1;
      ChangedStores(b, r, st, s1, t1);
      SameStatus(b, r.(store := s1), st.(dev := st.dev.(store := t1)), status);
      NamedEntry(b, r.(store := s1), st.(dev := st.dev.(store := t1)), f, f', status);
    }
  }

  /** A set record without exactly one attribute and value is refused on either side. */
  lemma OddSet(st: State, s: Store, key: Handle, attr: seq<Value>)
    requires |attr| != 2
    ensures SetStep(st, key, attr).None? && SaiStore.SetAttr(s, key, attr).0 != Success
  {
  }

  lemma SetOneSim(b: Ren, r: Recorded, st: State, key: Handle, attr: seq<Value>)
    requires Sim(b, r, st) && Plain(attr)
    ensures SetStep(st, key, attr).Some? ==> Resolvable(r.known, SetOne(key, attr))
    ensures CleanH(st.rec2vid, key) ==>
      (SetStep(st, key, attr).Some? <==> Resolvable(r.known, SetOne(key, attr)) && SaiStore.SetAttr(r.store, key, attr).0 == Success)
    ensures CleanH(st.rec2vid, key) && SetStep(st, key, attr).Some? ==>
      Sim(b, r.(store := SaiStore.SetAttr(r.store, key, attr).1), SetStep(st, key, attr).value)
  {
    if |attr| != 2 {
      OddSet(st, r.store, key, attr);
    } else {
      RewriteChangeIsRenaming(st.rec2vid, r.known, b, Change(key, attr), false);
      if Resolvable(r.known, SetOne(key, attr)) && CleanH(st.rec2vid, key) {
        SetStores(b, r.store, st.dev.store, key, attr);
      }
    }
  }

  lemma BelowWithout(b: Ren, next: nat, o: Oid)
    requires Below(b, next)
    ensures Below(b - {o}, next)
  {
    var c := b - {o};
    forall q ensures Outside(c, q, next, next, next) { assert Outside(b, q, next, next, next); }
  }

  /** Removing an object or entry, with the map shrunk when an OID dies. */
  lemma RemoveOneSim(b: Ren, s: Store, known: set<Value>, d: Dev, m: Rec2Vid, key: Handle) returns (c: Ren)
    requires Core(b, s, known, d, m) && CleanH(m, key)
    ensures RewriteKey(m, key).Some? <==> KeyResolvable(known, key)
    ensures c == if key.OidH? then b - {key.oid} else b
    ensures KeyResolvable(known, key) ==>
      var key' := RewriteKey(m, key).value;
      && RemoveObj(d.store, key').0 == RemoveObj(s, key).0
      && (RemoveObj(s, key).0 == Success ==>
           Core(c, RemoveObj(s, key).1, ForgetOne(known, key), d.(store := RemoveObj(d.store, key').1), Pop(m, key)))
  {
    c := if key.OidH? then b - {key.oid} else b;
    RewriteKeyIsRenaming(m, known, b, key);
    if KeyResolvable(known, key) {
      RemoveCommutes(b, s, d.store, key);
      if RemoveObj(s, key).0 == Success { RemovedCore(b, s, known, d, m, key); }
    }
  }

  lemma RemovedCore(b: Ren, s: Store, known: set<Value>, d: Dev, m: Rec2Vid, key: Handle)
    requires Core(b, s, known, d, m) && KnownH(b, key)
    requires RemoveObj(s, key).0 == Success && RemoveObj(d.store, RenH(b, key)).0 == Success
    ensures var c := if key.OidH? then b - {key.oid} else b;
      Core(c, RemoveObj(s, key).1, ForgetOne(known, key), d.(store := RemoveObj(d.store, RenH(b, key)).1), Pop(m, key))
  {
    match key
    case OidH(o) =>
      RemoveObjectStores(b, s, d.store, o);
      AgreesWithout(m, known, b, o);
      BelowWithout(b, d.next, o);
    case EntryH(_, _) =>
      RemoveEntryStores(b, s, d.store, key);
  }

  lemma RemoveSim(b: Ren, r: Recorded, st: State, key: Handle) returns (c: Ren)
    requires Sim(b, r, st) && r.pend == []
    ensures RemoveStep(st, key).Some? ==> KeyResolvable(r.known, key)
    ensures CleanH(st.rec2vid, key) ==>
      (RemoveStep(st, key).Some? <==> KeyResolvable(r.known, key) && RemoveObj(r.store, key).0 == Success)
    ensures CleanH(st.rec2vid, key) && RemoveStep(st, key).Some? ==>
      Sim(c, r.(store := RemoveObj(r.store, key).1, known := ForgetOne(r.known, key)), RemoveStep(st, key).value)
    ensures Agree(b, c)
  {
    c := b;
    RewriteKeyIsRenaming(st.rec2vid, r.known, b, key);
    if CleanH(st.rec2vid, key) { c := RemoveOneSim(b, r.store, r.known, st.dev, st.rec2vid, key); }
  }

  lemma {:induction false} PendingReply(b: Ren, r: Recorded, st: State, reply: seq<Value>)
    requires Sim(b, r, st) && KnownFlat(b, reply)
    ensures Sim(b, r.(pend := r.pend + OidsOf(reply), status := Some(Success)),
                st.(oids := st.oids + OidsOf(RenFlat(b, reply)), status := Some(Success)))
  {
    OidsOfRen(b, reply);
    RenSeqConcat(b, r.pend, OidsOf(reply));
  }

  lemma GetSim(p: Profile, b: Ren, r: Recorded, st: State, key: Handle, attrs: seq<Value>, hidden: seq<seq<Oid>>)
    requires Sim(b, r, st)
    ensures GetStep(st, key, attrs).Some? <==> KeyResolvable(r.known, key)
    ensures KeyResolvable(r.known, key) && CleanH(st.rec2vid, key) ==>
      Sim(b, RecStep(p, r, Get(key, attrs), hidden).value, GetStep(st, key, attrs).value)
  {
    RewriteKeyIsRenaming(st.rec2vid, r.known, b, key);
    if KeyResolvable(r.known, key) && CleanH(st.rec2vid, key) {
      GetCommutes(b, r.store, st.dev.store, key, attrs);
      var (status, reply) := GetAttrs(r.store, key, attrs);
      assert Carried(b, r.store, st.dev.store, key);
      if key in r.store { ReadKnown(b, r.store[key], attrs); }
      if status == Success { PendingReply(b, r, st, reply); } else { SameStatus(b, r, st, status); }
    }
  }

  lemma ReplySim(p: Profile, b: Ren, r: Recorded, st: State, attrs: seq<Value>, hidden: seq<seq<Oid>>)
    requires Sim(b, r, st) && RecStep(p, r, Reply(attrs), hidden).Some?
    ensures ReplyStep(st, attrs).Some?
    ensures Sim(b, RecStep(p, r, Reply(attrs), hidden).value, ReplyStep(st, attrs).value)
  {
    LearnAgrees(st.rec2vid, r.known, b, r.pend);
  }

  // ---------- bulk records ----------

  ghost predicate KnownObjs(b: Ren, objs: seq<NewObj>) {
    forall i | 0 <= i < |objs| :: KnownFlat(b, objs[i].attrs)
  }

  ghost function RenObjs(b: Ren, objs: seq<NewObj>): (r: seq<seq<Value>>)
    ensures |r| == |objs|
  {
    seq(|objs|, i requires 0 <= i < |objs| => RenFlat(b, objs[i].attrs))
  }

  lemma {:induction false} RewriteObjsIsRenaming(m: Rec2Vid, known: set<Value>, b: Ren, objs: seq<NewObj>)
    requires Bij(b) && Agrees(m, known, b) && forall i | 0 <= i < |objs| :: Plain(objs[i].attrs)
    ensures RewriteObjs(m, objs).Some? <==> ObjsResolvable(known, objs)
    ensures ObjsResolvable(known, objs) ==> KnownObjs(b, objs) && RewriteObjs(m, objs) == Some(RenObjs(b, objs))
  {
    if |objs| > 0 {
      var n := |objs| - 1;
      assert forall i | 0 <= i < n :: objs[..n][i] == objs[i];
      RewriteObjsIsRenaming(m, known, b, objs[..n]);
      RewriteAttrsIsRenaming(m, known, b, objs[n].attrs, true);
      KnownObjsSnoc(b, objs, n);
    }
  }

  lemma KnownObjsSnoc(b: Ren, objs: seq<NewObj>, n: nat)
    requires |objs| == n + 1
    ensures KnownObjs(b, objs) <==> KnownObjs(b, objs[..n]) && KnownFlat(b, objs[n].attrs)
    ensures RenObjs(b, objs) == RenObjs(b, objs[..n]) + [RenFlat(b, objs[n].attrs)]
  {
    var pre := objs[..n];
    assert forall i | 0 <= i < n :: pre[i] == objs[i];
    if KnownObjs(b, pre) && KnownFlat(b, objs[n].attrs) {
      forall i | 0 <= i < |objs| ensures KnownFlat(b, objs[i].attrs) {
        if i < n { assert KnownFlat(b, pre[i].attrs); }
      }
    }
    if KnownObjs(b, objs) {
      forall i | 0 <= i < n ensures KnownFlat(b, pre[i].attrs) { assert KnownFlat(b, objs[i].attrs); }
    }
  }

  lemma {:induction false} BatchIsPlain(p: Profile, s: Store, ty: ObjType, objs: seq<NewObj>, hidden: seq<seq<Oid>>)
    requires |hidden| == |objs| && BatchFits(p, s, ty, objs, hidden)
    ensures forall i | 0 <= i < |objs| :: Plain(objs[i].attrs)
  {
    if |objs| > 0 {
      BatchIsPlain(p, s, ty, objs[..|objs| - 1], hidden[..|objs| - 1]);
      assert forall i | 0 <= i < |objs| - 1 :: objs[..|objs| - 1][i] == objs[i];
    }
  }

  lemma CreateOneSim(p: Profile, b: Ren, c0: Ren, s: Store, d: Dev, ty: ObjType, k: nat, hi: nat, obj: NewObj, hidden: seq<Oid>, s': Store)
    returns (c: Ren, d': Dev)
    requires Made(c0, s, d, k, hi) && k < hi && Grows(b, c0) && KnownFlat(b, obj.attrs) && RecLink(p, s, s', ty, obj, hidden)
    ensures Link(p, d, d', ty, k, RenFlat(b, obj.attrs)) && Made(c, s', d', k + 1, hi)
    ensures Grows(b, c) && Grows(c0, c) && obj.oid in c && c[obj.oid] == Vid(ty, k)
  {
    RenExtendsFlat(b, c0, obj.attrs);
    c := DevCreateSimulates(p, c0, s, d, ty, k, hi, [obj.oid] + hidden, obj.attrs);
    d' := DevWith(p, d, Vid(ty, k), RenFlat(b, obj.attrs));
  }

  /** One create of a batch takes the live switch from d to d'. */
  ghost predicate Link(p: Profile, d: Dev, d': Dev, ty: ObjType, k: nat, attrs: seq<Value>) {
    CreateStatus(d.store, OidH(Vid(ty, k)), attrs) == Success && d' == DevWith(p, d, Vid(ty, k), attrs)
  }

  ghost predicate Linked(p: Profile, devs: seq<Dev>, ty: ObjType, base: nat, attrs: seq<seq<Value>>) {
    |devs| <= |attrs| + 1 && forall i | 0 <= i < |devs| - 1 :: Link(p, devs[i], devs[i + 1], ty, base + i, attrs[i])
  }

  lemma {:induction false} LinkedCreates(p: Profile, devs: seq<Dev>, ty: ObjType, base: nat, attrs: seq<seq<Value>>)
    requires Linked(p, devs, ty, base, attrs) && |devs| == |attrs| + 1
    ensures CreateMany(p, devs[0], ty, base, attrs) == Some(devs[|attrs|])
    decreases |attrs|
  {
    if |attrs| > 0 {
      var n := |attrs| - 1;
      var pre, ds := attrs[..n], devs[..n + 1];
      forall i | 0 <= i < n ensures Link(p, ds[i], ds[i + 1], ty, base + i, pre[i]) {
        assert Link(p, devs[i], devs[i + 1], ty, base + i, attrs[i]);
      }
      LinkedCreates(p, ds, ty, base, pre);
      assert Link(p, devs[n], devs[n + 1], ty, base + n, attrs[n]);
    }
  }

  /** One create of a batch takes the recorded switch from s to s'. */
  ghost predicate RecLink(p: Profile, s: Store, s': Store, ty: ObjType, obj: NewObj, hidden: seq<Oid>) {
    RecCreateOne(p, s, ty, obj, hidden) == Some(s')
  }

  ghost predicate RecLinked(p: Profile, ss: seq<Store>, ty: ObjType, objs: seq<NewObj>, hidden: seq<seq<Oid>>) {
    && |ss| == |objs| + 1 && |hidden| == |objs|
    && forall i | 0 <= i < |objs| :: RecLink(p, ss[i], ss[i + 1], ty, objs[i], hidden[i])
  }

  lemma RecCreatesLinked(p: Profile, s: Store, ty: ObjType, objs: seq<NewObj>, hidden: seq<seq<Oid>>) returns (ss: seq<Store>)
    requires |hidden| == |objs| && RecCreateMany(p, s, ty, objs, hidden).Some?
    ensures RecLinked(p, ss, ty, objs, hidden) && ss[0] == s && RecCreateMany(p, s, ty, objs, hidden) == Some(ss[|objs|])
  {
    ss := [s];
    if |objs| > 0 {
      var n := |objs| - 1;
      var pre, hid := objs[..n], hidden[..n];
      var ss0 := RecCreatesLinked(p, s, ty, pre, hid);
      ss := ss0 + [RecCreateMany(p, s, ty, objs, hidden).value];
      forall i | 0 <= i < |objs| ensures RecLink(p, ss[i], ss[i + 1], ty, objs[i], hidden[i]) {
        if i < n { assert RecLink(p, ss0[i], ss0[i + 1], ty, pre[i], hid[i]); }
      }
    }
  }

  lemma RecCreateManySnoc(p: Profile, s: Store, ty: ObjType, objs: seq<NewObj>, hidden: seq<seq<Oid>>, n: nat) returns (s0: Store)
    requires |objs| == |hidden| == n + 1 && RecCreateMany(p, s, ty, objs, hidden).Some?
    ensures RecCreateMany(p, s, ty, objs[..n], hidden[..n]) == Some(s0)
    ensures RecCreateOne(p, s0, ty, objs[n], hidden[n]) == RecCreateMany(p, s, ty, objs, hidden)
  {
    s0 := RecCreateMany(p, s, ty, objs[..n], hidden[..n]).value;
  }

  /** The first k objects of the batch got consecutive live ids. */
  ghost predicate Numbered(c: Ren, objs: seq<NewObj>, ty: ObjType, base: nat, k: nat) {
    k <= |objs| && forall i | 0 <= i < k :: objs[i].oid in c && c[objs[i].oid] == Vid(ty, base + i)
  }

  lemma CreateManySim(p: Profile, b: Ren, ss: seq<Store>, d: Dev, ty: ObjType, base: nat, hi: nat, objs: seq<NewObj>, hidden: seq<seq<Oid>>,
                      k: nat) returns (c: Ren, devs: seq<Dev>)
    requires RecLinked(p, ss, ty, objs, hidden) && KnownObjs(b, objs)
    requires Made(b, ss[0], d, base, hi) && base + |objs| <= hi && k <= |objs|
    ensures |devs| == k + 1 && devs[0] == d && Linked(p, devs, ty, base, RenObjs(b, objs))
    ensures Made(c, ss[k], devs[k], base + k, hi) && Grows(b, c) && Numbered(c, objs, ty, base, k)
  {
    c, devs := b, [d];
    if k > 0 {
      var n := k - 1;
      var c0, pre := CreateManySim(p, b, ss, d, ty, base, hi, objs, hidden, n);
      assert RecLink(p, ss[n], ss[k], ty, objs[n], hidden[n]);
      var d';
      c, d' := CreateOneSim(p, b, c0, ss[n], pre[n], ty, base + n, hi, objs[n], hidden[n], ss[k]);
      devs := LinkedNext(p, pre, d', ty, base, RenObjs(b, objs), n);
    }
  }

  lemma LinkedNext(p: Profile, pre: seq<Dev>, d': Dev, ty: ObjType, base: nat, attrs: seq<seq<Value>>, n: nat) returns (devs: seq<Dev>)
    requires n < |attrs| && |pre| == n + 1 && Linked(p, pre, ty, base, attrs) && Link(p, pre[n], d', ty, base + n, attrs[n])
    ensures Linked(p, devs, ty, base, attrs) && |devs| == n + 2 && devs[0] == pre[0] && devs[n + 1] == d'
  {
    devs := pre + [d'];
    forall i | 0 <= i < n + 1 ensures Link(p, devs[i], devs[i + 1], ty, base + i, attrs[i]) {
      if i < n { assert Link(p, pre[i], pre[i + 1], ty, base + i, attrs[i]); }
    }
  }

  lemma NamedBatch(b: Ren, c: Ren, r: Recorded, st: State, ty: ObjType, objs: seq<NewObj>, s: Store, d: Dev)
    requires Sim(b, r, st) && Grows(b, c) && Stores(c, s, d.store) && Below(c, d.next)
    requires Numbered(c, objs, ty, st.dev.next, |objs|)
    ensures Sim(c, RecCreated(r, objs, s), Created(st, ty, objs, d))
  {
    AgreesGrows(st.rec2vid, r.known, b, c);
    assert RenSeq(c, ObjOids(objs)) == OwnIds(ty, st.dev.next, |objs|);
    LearnAgrees(st.rec2vid, r.known, c, ObjOids(objs));
    KnownSeqGrows(b, c, r.pend);
  }

  lemma BulkCreateObjectsSim(p: Profile, b: Ren, r: Recorded, st: State, ty: ObjType, objs: seq<NewObj>, hidden: seq<seq<Oid>>)
    returns (c: Ren)
    requires Sim(b, r, st) && |hidden| == |objs| && BatchFits(p, r.store, ty, objs, hidden)
    ensures BulkCreateObjectsStep(p, st, ty, objs).Some? <==>
      Resolvable(r.known, BulkCreateObjects(ty, objs)) && RecCreateMany(p, r.store, ty, objs, hidden).Some?
    ensures BulkCreateObjectsStep(p, st, ty, objs).Some? ==>
      Sim(c, RecCreated(r, objs, RecCreateMany(p, r.store, ty, objs, hidden).value), BulkCreateObjectsStep(p, st, ty, objs).value)
    ensures Grows(b, c)
  {
    c := b;
    BatchIsPlain(p, r.store, ty, objs, hidden);
    RewriteObjsIsRenaming(st.rec2vid, r.known, b, objs);
    if !Resolvable(r.known, BulkCreateObjects(ty, objs)) {
      BulkStepFails(p, st, ty, objs);
    } else if RecCreateMany(p, r.store, ty, objs, hidden).None? {
      MadeNone(b, r.store, st.dev, |objs|);
      RefusedCall(p, b, r.store, Dev(st.dev.store, st.dev.next + |objs|), ty, st.dev.next, objs, hidden);
      BulkCallFails(p, st, ty, objs, RenObjs(b, objs));
    } else {
      var ss := RecCreatesLinked(p, r.store, ty, objs, hidden);
      var devs;
      c, devs := BulkCreateSim(p, b, r, st, ty, objs, hidden, ss);
      LinkedCreates(p, devs, ty, st.dev.next, RenObjs(b, objs));
      BulkStepParts(p, st, ty, objs, RenObjs(b, objs), devs[0], devs[|objs|]);
    }
  }

  /** The recorded switch refused this object. */
  ghost predicate Refuses(p: Profile, s: Store, ty: ObjType, obj: NewObj, hidden: seq<Oid>) {
    ValidIds(p, s, [obj.oid] + hidden) && obj.oid.ty == ty && CreateStatus(s, OidH(obj.oid), obj.attrs) != Success
  }

  lemma RefusesToo(p: Profile, b: Ren, c: Ren, s: Store, d: Dev, ty: ObjType, k: nat, hi: nat, obj: NewObj, hidden: seq<Oid>)
    requires Made(c, s, d, k, hi) && k < hi && Grows(b, c) && KnownFlat(b, obj.attrs) && Refuses(p, s, ty, obj, hidden)
    ensures CreateStatus(d.store, OidH(Vid(ty, k)), RenFlat(b, obj.attrs)) != Success
  {
    RenExtendsFlat(b, c, obj.attrs);
    var _ := DevCreateSimulates(p, c, s, d, ty, k, hi, [obj.oid] + hidden, obj.attrs);
  }

  /** The first object of the batch that the recorded switch refused. */
  lemma FirstRefused(p: Profile, s: Store, ty: ObjType, objs: seq<NewObj>, hidden: seq<seq<Oid>>) returns (n: nat)
    requires |hidden| == |objs| && BatchFits(p, s, ty, objs, hidden) && RecCreateMany(p, s, ty, objs, hidden).None?
    ensures n < |objs| && RecCreateMany(p, s, ty, objs[..n], hidden[..n]).Some?
    ensures Refuses(p, RecCreateMany(p, s, ty, objs[..n], hidden[..n]).value, ty, objs[n], hidden[n])
  {
    n := |objs| - 1;
    if RecCreateMany(p, s, ty, objs[..n], hidden[..n]).None? {
      var k := FirstRefused(p, s, ty, objs[..n], hidden[..n]);
      assert objs[..n][..k] == objs[..k] && hidden[..n][..k] == hidden[..k];
      n := k;
    }
  }

  lemma {:induction false} CreateManyStops(p: Profile, d: Dev, ty: ObjType, base: nat, attrs: seq<seq<Value>>, n: nat, d': Dev)
    requires n < |attrs| && CreateMany(p, d, ty, base, attrs[..n]) == Some(d')
    requires CreateStatus(d'.store, OidH(Vid(ty, base + n)), attrs[n]) != Success
    ensures CreateMany(p, d, ty, base, attrs).None?
  {
    if n < |attrs| - 1 {
      assert attrs[..|attrs| - 1][..n] == attrs[..n];
      CreateManyStops(p, d, ty, base, attrs[..|attrs| - 1], n, d');
    }
  }

  /** A batch the recorded switch refused is refused by the live one. */
  lemma {:induction false} RefusedCall(p: Profile, b: Ren, s0: Store, d0: Dev, ty: ObjType, base: nat, objs: seq<NewObj>, hidden: seq<seq<Oid>>)
    requires Made(b, s0, d0, base, base + |objs|) && KnownObjs(b, objs) && |objs| == |hidden|
    requires BatchFits(p, s0, ty, objs, hidden) && RecCreateMany(p, s0, ty, objs, hidden).None?
    ensures CreateMany(p, d0, ty, base, RenObjs(b, objs)).None?
  {
    var n := FirstRefused(p, s0, ty, objs, hidden);
    RefusedAt(p, b, s0, d0, ty, base, base + |objs|, objs, hidden, n);
  }

  lemma {:induction false} BulkCallFails(p: Profile, st: State, ty: ObjType, objs: seq<NewObj>, attrs: seq<seq<Value>>)
    requires RewriteObjs(st.rec2vid, objs) == Some(attrs)
    requires CreateMany(p, Dev(st.dev.store, st.dev.next + |objs|), ty, st.dev.next, attrs).None?
    ensures BulkCreateObjectsStep(p, st, ty, objs).None?
  {
  }

  lemma {:induction false} RefusedAt(p: Profile, b: Ren, s0: Store, d0: Dev, ty: ObjType, base: nat, hi: nat, objs: seq<NewObj>, hidden: seq<seq<Oid>>, n: nat)
    requires Made(b, s0, d0, base, hi) && base + |objs| <= hi && KnownObjs(b, objs) && n < |objs| == |hidden|
    requires RecCreateMany(p, s0, ty, objs[..n], hidden[..n]).Some?
    requires Refuses(p, RecCreateMany(p, s0, ty, objs[..n], hidden[..n]).value, ty, objs[n], hidden[n])
    ensures CreateMany(p, d0, ty, base, RenObjs(b, objs)).None?
  {
    var c, s, d := PrefixOfBatch(p, b, s0, d0, ty, base, hi, objs, hidden, n);
    RefusesToo(p, b, c, s, d, ty, base + n, hi, objs[n], hidden[n]);
    CreateManyStops(p, d0, ty, base, RenObjs(b, objs), n, d);
  }

  /** The first n objects of a batch, on either side. */
  lemma PrefixOfBatch(p: Profile, b: Ren, s0: Store, d0: Dev, ty: ObjType, base: nat, hi: nat, objs: seq<NewObj>, hidden: seq<seq<Oid>>,
                      n: nat) returns (c: Ren, s: Store, d: Dev)
    requires Made(b, s0, d0, base, hi) && base + |objs| <= hi && KnownObjs(b, objs) && n <= |objs| == |hidden|
    requires RecCreateMany(p, s0, ty, objs[..n], hidden[..n]).Some?
    ensures RecCreateMany(p, s0, ty, objs[..n], hidden[..n]) == Some(s) && CreateMany(p, d0, ty, base, RenObjs(b, objs)[..n]) == Some(d)
    ensures Made(c, s, d, base + n, hi) && Grows(b, c)
  {
    var pre := objs[..n];
    assert forall i | 0 <= i < n :: pre[i] == objs[i];
    var ss := RecCreatesLinked(p, s0, ty, pre, hidden[..n]);
    var devs;
    c, devs := CreateManySim(p, b, ss, d0, ty, base, hi, pre, hidden[..n], n);
    s, d := ss[n], devs[n];
    LinkedCreates(p, devs, ty, base, RenObjs(b, pre));
    assert RenObjs(b, objs)[..n] == RenObjs(b, pre);
  }

  lemma {:induction false} BulkStepParts(p: Profile, st: State, ty: ObjType, objs: seq<NewObj>, attrs: seq<seq<Value>>, d0: Dev, d: Dev)
    requires |objs| > 0 && RewriteObjs(st.rec2vid, objs) == Some(attrs)
    requires d0 == Dev(st.dev.store, st.dev.next + |objs|) && CreateMany(p, d0, ty, st.dev.next, attrs) == Some(d)
    ensures BulkCreateObjectsStep(p, st, ty, objs) == Some(Created(st, ty, objs, d))
  {
  }

  lemma {:induction false} BulkStepFails(p: Profile, st: State, ty: ObjType, objs: seq<NewObj>)
    requires |objs| == 0 || RewriteObjs(st.rec2vid, objs).None?
    ensures BulkCreateObjectsStep(p, st, ty, objs).None?
  {
  }

  lemma BulkCreateSim(p: Profile, b: Ren, r: Recorded, st: State, ty: ObjType, objs: seq<NewObj>, hidden: seq<seq<Oid>>, ss: seq<Store>)
    returns (c: Ren, devs: seq<Dev>)
    requires Sim(b, r, st) && KnownObjs(b, objs) && RecLinked(p, ss, ty, objs, hidden) && ss[0] == r.store
    ensures |devs| == |objs| + 1 && Linked(p, devs, ty, st.dev.next, RenObjs(b, objs))
    ensures devs[0] == Dev(st.dev.store, st.dev.next + |objs|) && Sim(c, RecCreated(r, objs, ss[|objs|]), Created(st, ty, objs, devs[|objs|]))
    ensures Grows(b, c)
  {
    var base, hi := st.dev.next, st.dev.next + |objs|;
    MadeNone(b, r.store, st.dev, |objs|);
    c, devs := CreateManySim(p, b, ss, Dev(st.dev.store, hi), ty, base, hi, objs, hidden, |objs|);
    FinishBatch(b, c, r, st, ty, objs, ss[|objs|], devs[|objs|], hi);
  }

  lemma FinishBatch(b: Ren, c: Ren, r: Recorded, st: State, ty: ObjType, objs: seq<NewObj>, s: Store, d: Dev, hi: nat)
    requires Sim(b, r, st) && Grows(b, c) && Made(c, s, d, hi, hi) && Numbered(c, objs, ty, st.dev.next, |objs|)
    ensures Sim(c, RecCreated(r, objs, s), Created(st, ty, objs, d))
  {
    MadeAll(c, s, d, hi);
    NamedBatch(b, c, r, st, ty, objs, s, d);
  }

  lemma MadeNone(b: Ren, s: Store, d: Dev, n: nat)
    requires Stores(b, s, d.store) && Below(b, d.next)
    ensures Made(b, s, Dev(d.store, d.next + n), d.next, d.next + n)
  {
    var next := d.next + n;
    forall o ensures Outside(b, o, next, d.next, next) { assert Outside(b, o, d.next, d.next, d.next); }
  }

  lemma MadeAll(c: Ren, s: Store, d: Dev, hi: nat)
    requires Made(c, s, d, hi, hi)
    ensures Stores(c, s, d.store) && Below(c, d.next)
  {
    forall o ensures Outside(c, o, d.next, d.next, d.next) { assert Outside(c, o, d.next, hi, hi); }
  }

  ghost predicate KnownEntries(b: Ren, entries: seq<NewEntry>) {
    |entries| > 0 ==>
      var e := entries[|entries| - 1];
      KnownEntries(b, entries[..|entries| - 1]) && KnownF(b, e.key) && KnownFlat(b, e.attrs)
  }

  ghost function RenEntries(b: Ren, entries: seq<NewEntry>): (r: seq<NewEntry>)
    ensures |r| == |entries|
  {
    if |entries| == 0 then []
    else
      var e := entries[|entries| - 1];
      RenEntries(b, entries[..|entries| - 1]) + [NewEntry(RenF(b, e.key), RenFlat(b, e.attrs))]
  }

  lemma {:induction false} RewriteEntryIsRenaming(m: Rec2Vid, known: set<Value>, b: Ren, e: NewEntry)
    requires Bij(b) && Agrees(m, known, b) && Plain(e.attrs)
    ensures RewriteAttrs(m, e.attrs, true).Some? <==> AttrsResolvable(known, e.attrs, true)
    ensures RewriteFields(m, e.key).Some? <==> FieldsResolvable(known, e.key)
    ensures AttrsResolvable(known, e.attrs, true) ==>
      KnownFlat(b, e.attrs) && RewriteAttrs(m, e.attrs, true) == Some(RenFlat(b, e.attrs))
    ensures FieldsResolvable(known, e.key) && CleanKey(m, e.key) ==> KnownF(b, e.key) && RewriteFields(m, e.key) == Some(RenF(b, e.key))
  {
    RewriteAttrsIsRenaming(m, known, b, e.attrs, true);
    RewriteFieldsIsRenaming(m, known, b, e.key);
  }

  ghost predicate CleanEntries(m: Rec2Vid, entries: seq<NewEntry>) {
    forall i | 0 <= i < |entries| :: CleanKey(m, entries[i].key)
  }

  lemma {:induction false} EntriesSnoc(m: Rec2Vid, known: set<Value>, b: Ren, pre: seq<NewEntry>, e: NewEntry)
    ensures EntriesResolvable(known, pre + [e]) <==>
      EntriesResolvable(known, pre) && AttrsResolvable(known, e.attrs, true) && FieldsResolvable(known, e.key)
    ensures KnownEntries(b, pre + [e]) <==> KnownEntries(b, pre) && KnownF(b, e.key) && KnownFlat(b, e.attrs)
    ensures RenEntries(b, pre + [e]) == RenEntries(b, pre) + [NewEntry(RenF(b, e.key), RenFlat(b, e.attrs))]
    ensures CleanEntries(m, pre + [e]) <==> CleanEntries(m, pre) && CleanKey(m, e.key)
  {
    var entries := pre + [e];
    assert entries[..|pre|] == pre;
    assert CleanEntries(m, entries) ==> CleanKey(m, entries[|pre|].key) && forall i | 0 <= i < |pre| :: CleanKey(m, entries[i].key);
  }

  lemma {:induction false} RewriteEntriesSnoc(m: Rec2Vid, pre: seq<NewEntry>, e: NewEntry)
    ensures RewriteEntries(m, pre + [e]) ==
      if RewriteEntries(m, pre).Some? && RewriteAttrs(m, e.attrs, true).Some? && RewriteFields(m, e.key).Some?
      then Some(RewriteEntries(m, pre).value + [NewEntry(RewriteFields(m, e.key).value, RewriteAttrs(m, e.attrs, true).value)])
      else None
  {
    assert (pre + [e])[..|pre|] == pre;
  }

  lemma {:induction false} RewriteEntriesIsRenaming(m: Rec2Vid, known: set<Value>, b: Ren, entries: seq<NewEntry>)
    requires Bij(b) && Agrees(m, known, b) && PlainEntries(entries)
    ensures RewriteEntries(m, entries).Some? <==> EntriesResolvable(known, entries)
    ensures EntriesResolvable(known, entries) && CleanEntries(m, entries) ==>
      KnownEntries(b, entries) && RewriteEntries(m, entries) == Some(RenEntries(b, entries))
  {
    if |entries| > 0 {
      var n := |entries| - 1;
      var pre, e := entries[..n], entries[n];
      assert PlainEntries(pre) && entries == pre + [e];
      RewriteEntriesIsRenaming(m, known, b, pre);
      RewriteEntryIsRenaming(m, known, b, e);
      EntriesSnoc(m, known, b, pre, e);
      RewriteEntriesSnoc(m, pre, e);
    }
  }

  lemma {:induction false} CreateEntriesSim(b: Ren, s: Store, t: Store, ty: ObjType, entries: seq<NewEntry>)
    requires Stores(b, s, t) && KnownEntries(b, entries)
    ensures CreateEntries(t, ty, RenEntries(b, entries)).Some? <==> CreateEntries(s, ty, entries).Some?
    ensures CreateEntries(s, ty, entries).Some? ==>
      Stores(b, CreateEntries(s, ty, entries).value, CreateEntries(t, ty, RenEntries(b, entries)).value)
  {
    if |entries| > 0 {
      var n := |entries| - 1;
      var pre := entries[..n];
      CreateEntriesSim(b, s, t, ty, pre);
      CreateEntriesSnoc(s, ty, entries, n);
      CreateEntriesSnoc(t, ty, RenEntries(b, entries), n);
      assert RenEntries(b, entries)[..n] == RenEntries(b, pre);
      if CreateEntries(s, ty, pre).Some? {
        CreateEntryStores(b, CreateEntries(s, ty, pre).value, CreateEntries(t, ty, RenEntries(b, pre)).value, ty,
          entries[n].key, entries[n].attrs);
      }
    }
  }

  lemma {:induction false} CreateEntriesSnoc(s: Store, ty: ObjType, entries: seq<NewEntry>, n: nat)
    requires |entries| == n + 1
    ensures CreateEntries(s, ty, entries) ==
      match CreateEntries(s, ty, entries[..n])
      case None => None
      case Some(s') =>
        var (st, s'') := CreateEntry(s', ty, entries[n].key, entries[n].attrs);
        if st == Success then Some(s'') else None
  {
  }

  lemma {:induction false} BulkCreateEntriesSim(b: Ren, r: Recorded, st: State, ty: ObjType, entries: seq<NewEntry>)
    requires Sim(b, r, st) && PlainEntries(entries)
    ensures BulkCreateEntriesStep(st, ty, entries).Some? ==> Resolvable(r.known, BulkCreateEntries(ty, entries))
    ensures Clean(st.rec2vid, BulkCreateEntries(ty, entries)) ==>
      (BulkCreateEntriesStep(st, ty, entries).Some? <==>
        Resolvable(r.known, BulkCreateEntries(ty, entries)) && CreateEntries(r.store, ty, entries).Some?)
    ensures Clean(st.rec2vid, BulkCreateEntries(ty, entries)) && BulkCreateEntriesStep(st, ty, entries).Some? ==>
      Sim(b, r.(store := CreateEntries(r.store, ty, entries).value), BulkCreateEntriesStep(st, ty, entries).value)
  {
    RewriteEntriesIsRenaming(st.rec2vid, r.known, b, entries);
    if Resolvable(r.known, BulkCreateEntries(ty, entries)) && Clean(st.rec2vid, BulkCreateEntries(ty, entries)) {
      CreateEntriesSim(b, r.store, st.dev.store, ty, entries);
    }
  }

  ghost predicate KnownChanges(b: Ren, changes: seq<Change>) {
    |changes| > 0 ==>
      var c := changes[|changes| - 1];
      KnownChanges(b, changes[..|changes| - 1]) && KnownH(b, c.key) && KnownFlat(b, c.attr)
  }

  ghost function RenChanges(b: Ren, changes: seq<Change>): (r: seq<Change>)
    ensures |r| == |changes|
  {
    if |changes| == 0 then []
    else
      var c := changes[|changes| - 1];
      RenChanges(b, changes[..|changes| - 1]) + [Change(RenH(b, c.key), RenFlat(b, c.attr))]
  }

  lemma {:induction false} RewriteChangesIsRenaming(m: Rec2Vid, known: set<Value>, b: Ren, changes: seq<Change>)
    requires Bij(b) && Agrees(m, known, b) && PlainChanges(changes)
    requires forall i | 0 <= i < |changes| :: |changes[i].attr| == 2
    ensures RewriteChanges(m, changes).Some? <==> ChangesResolvable(known, changes)
    ensures ChangesResolvable(known, changes) && (forall i | 0 <= i < |changes| :: CleanH(m, changes[i].key)) ==>
      KnownChanges(b, changes) && RewriteChanges(m, changes) == Some(RenChanges(b, changes))
  {
    if |changes| > 0 {
      var n := |changes| - 1;
      var pre := changes[..n];
      assert PlainChanges(pre) && forall i | 0 <= i < n :: pre[i] == changes[i];
      RewriteChangesIsRenaming(m, known, b, pre);
      RewriteChangeIsRenaming(m, known, b, changes[n], true);
      assert ChangesResolvable(known, changes) ==> ChangesResolvable(known, pre);
    }
  }

  lemma {:induction false} SetManyPairs(s: Store, changes: seq<Change>)
    requires SetMany(s, changes).Some?
    ensures forall i | 0 <= i < |changes| :: |changes[i].attr| == 2
  {
    if |changes| > 0 {
      var n := |changes| - 1;
      SetManyPairs(s, changes[..n]);
      assert forall i | 0 <= i < n :: changes[..n][i] == changes[i];
    }
  }

  lemma {:induction false} RewritesKeepLengths(m: Rec2Vid, changes: seq<Change>)
    requires RewriteChanges(m, changes).Some?
    ensures forall i | 0 <= i < |changes| :: |RewriteChanges(m, changes).value[i].attr| == |changes[i].attr|
  {
    if |changes| > 0 {
      var n := |changes| - 1;
      RewritesKeepLengths(m, changes[..n]);
      assert forall i | 0 <= i < n :: changes[..n][i] == changes[i];
    }
  }

  /** A bulk set with an entry that is no pair is refused on either side. */
  lemma {:induction false} OddSets(st: State, s: Store, changes: seq<Change>)
    requires exists i | 0 <= i < |changes| :: |changes[i].attr| != 2
    ensures BulkSetStep(st, changes).None? && SetMany(s, changes).None?
  {
    if SetMany(s, changes).Some? { SetManyPairs(s, changes); }
    if RewriteChanges(st.rec2vid, changes).Some? {
      var changes' := RewriteChanges(st.rec2vid, changes).value;
      RewritesKeepLengths(st.rec2vid, changes);
      if SetMany(st.dev.store, changes').Some? { SetManyPairs(st.dev.store, changes'); }
    }
  }

  lemma {:induction false} SetManySnoc(s: Store, changes: seq<Change>, n: nat)
    requires |changes| == n + 1
    ensures SetMany(s, changes) ==
      match SetMany(s, changes[..n])
      case None => None
      case Some(s') =>
        var (st, s'') := SaiStore.SetAttr(s', changes[n].key, changes[n].attr);
        if st == Success then Some(s'') else None
  {
  }

  lemma {:induction false} SetManySim(b: Ren, s: Store, t: Store, changes: seq<Change>)
    requires Stores(b, s, t) && KnownChanges(b, changes)
    ensures SetMany(t, RenChanges(b, changes)).Some? <==> SetMany(s, changes).Some?
    ensures SetMany(s, changes).Some? ==> Stores(b, SetMany(s, changes).value, SetMany(t, RenChanges(b, changes)).value)
  {
    if |changes| > 0 {
      var n := |changes| - 1;
      var pre := changes[..n];
      SetManySim(b, s, t, pre);
      SetManySnoc(s, changes, n);
      SetManySnoc(t, RenChanges(b, changes), n);
      assert RenChanges(b, changes)[..n] == RenChanges(b, pre);
      if SetMany(s, pre).Some? {
        SetStores(b, SetMany(s, pre).value, SetMany(t, RenChanges(b, pre)).value, changes[n].key, changes[n].attr);
      }
    }
  }

  lemma {:induction false} BulkSetSim(b: Ren, r: Recorded, st: State, changes: seq<Change>)
    requires Sim(b, r, st) && PlainChanges(changes)
    ensures BulkSetStep(st, changes).Some? ==> Resolvable(r.known, BulkSet(changes))
    ensures Clean(st.rec2vid, BulkSet(changes)) ==>
      (BulkSetStep(st, changes).Some? <==> Resolvable(r.known, BulkSet(changes)) && SetMany(r.store, changes).Some?)
    ensures Clean(st.rec2vid, BulkSet(changes)) && BulkSetStep(st, changes).Some? ==>
      Sim(b, r.(store := SetMany(r.store, changes).value), BulkSetStep(st, changes).value)
  {
    if exists i | 0 <= i < |changes| :: |changes[i].attr| != 2 {
      OddSets(st, r.store, changes);
    } else {
      RewriteChangesIsRenaming(st.rec2vid, r.known, b, changes);
      if Resolvable(r.known, BulkSet(changes)) && Clean(st.rec2vid, BulkSet(changes)) {
        SetManySim(b, r.store, st.dev.store, changes);
      }
    }
  }

  lemma {:induction false} PopKeysSnoc(m: Rec2Vid, keys: seq<Handle>, n: nat)
    requires |keys| == n + 1
    ensures PopKeys(m, keys).Some? <==> PopKeys(m, keys[..n]).Some? && RewriteKey(PopKeys(m, keys[..n]).value.0, keys[n]).Some?
    ensures PopKeys(m, keys).Some? ==>
      var (m', keys') := PopKeys(m, keys[..n]).value;
      PopKeys(m, keys).value == (Pop(m', keys[n]), keys' + [RewriteKey(m', keys[n]).value])
  {
  }

  lemma {:induction false} RemoveManySnoc(s: Store, keys: seq<Handle>, key: Handle)
    ensures RemoveMany(s, keys + [key]).Some? <==> RemoveMany(s, keys).Some? && RemoveObj(RemoveMany(s, keys).value, key).0 == Success
    ensures RemoveMany(s, keys + [key]).Some? ==> RemoveMany(s, keys + [key]).value == RemoveObj(RemoveMany(s, keys).value, key).1
  {
    assert (keys + [key])[..|keys|] == keys;
  }

  /** The OIDs a map knows have OIDs as counterparts. */
  ghost predicate OidsToOids(m: Rec2Vid) {
    forall o | Ref(o) in m :: m[Ref(o)].Ref?
  }

  lemma KeyResolves(m: Rec2Vid, known: set<Value>, key: Handle)
    requires m.Keys == known && OidsToOids(m)
    ensures RewriteKey(m, key).Some? <==> KeyResolvable(known, key)
  {
    if key.EntryH? {
      ResolvableTokens(known, key.key);
      ReplacesIffKnown(m, key.key, OidTokens(key.key));
    }
  }

  lemma {:induction false} ResolvableTokens(known: set<Value>, f: Fields)
    ensures FieldsResolvable(known, f) <==> forall v | v in OidTokens(f) :: v in known
  {
    match f
    case NoFields =>
    case Field(_, v, rest) =>
      ResolvableTokens(known, rest);
      if v.Dict? { ResolvableTokens(known, v.fields); }
      assert HasOid(v) && !v.Dict? ==> v in OidTokens(f);
  }

  /** The keys of a bulk remove are popped one after the other, before any object is removed. */
  lemma {:induction false} PopsResolve(m: Rec2Vid, known: set<Value>, keys: seq<Handle>)
    requires m.Keys == known && OidsToOids(m)
    ensures PopKeys(m, keys).Some? <==> KeysResolvable(known, keys)
    ensures PopKeys(m, keys).Some? ==>
      var m' := PopKeys(m, keys).value.0;
      m'.Keys == Forget(known, keys) && OidsToOids(m') && Within(m', m)
  {
    if |keys| > 0 {
      var n := |keys| - 1;
      PopsResolve(m, known, keys[..n]);
      PopKeysSnoc(m, keys, n);
      if PopKeys(m, keys[..n]).Some? { KeyResolves(PopKeys(m, keys[..n]).value.0, Forget(known, keys[..n]), keys[n]); }
    }
  }

  /** What a simulation of the removes of these keys means; `c` is the renaming left. */
  ghost predicate RemovedAlike(c: Ren, s: Store, known: set<Value>, d: Dev, m: Rec2Vid, keys: seq<Handle>) {
    && PopKeys(m, keys).Some?
    && var (m', keys') := PopKeys(m, keys).value;
       && (RemoveMany(d.store, keys').Some? <==> RemoveMany(s, keys).Some?)
       && (RemoveMany(s, keys).Some? ==>
            Core(c, RemoveMany(s, keys).value, Forget(known, keys), d.(store := RemoveMany(d.store, keys').value), m'))
  }

  lemma {:induction false} ForgetSnoc(known: set<Value>, pre: seq<Handle>, key: Handle)
    ensures Forget(known, pre + [key]) == ForgetOne(Forget(known, pre), key)
  {
    assert (pre + [key])[..|pre|] == pre;
  }

  lemma RemoveManyNext(b: Ren, s: Store, known: set<Value>, d: Dev, m: Rec2Vid, pre: seq<Handle>, key: Handle) returns (c: Ren)
    requires RemovedAlike(b, s, known, d, m, pre) && KeyResolvable(Forget(known, pre), key)
    requires m.Keys == known && OidsToOids(m) && CleanH(m, key)
    ensures RemovedAlike(c, s, known, d, m, pre + [key])
    ensures Agree(b, c) && c.Keys <= b.Keys
  {
    var popped := PopKeys(m, pre).value;
    PopsResolve(m, known, pre);
    KeyResolves(popped.0, Forget(known, pre), key);
    if key.EntryH? { CleanWithin(popped.0, m, key.key); }
    assert (pre + [key])[..|pre|] == pre;
    PopKeysSnoc(m, pre + [key], |pre|);
    ForgetSnoc(known, pre, key);
    c := RemoveLastSim(b, s, Forget(known, pre), d, popped.0, pre, popped.1, key);
  }

  lemma {:induction false} RemoveManySim(b: Ren, s: Store, known: set<Value>, d: Dev, m: Rec2Vid, keys: seq<Handle>) returns (c: Ren)
    requires Core(b, s, known, d, m) && KeysResolvable(known, keys) && Clean(m, BulkRemove(keys))
    ensures RemovedAlike(c, s, known, d, m, keys)
    ensures Agree(b, c) && c.Keys <= b.Keys
  {
    c := b;
    if |keys| > 0 {
      var n := |keys| - 1;
      var pre, key := keys[..n], keys[n];
      assert keys == pre + [key] && forall i | 0 <= i < n :: pre[i] == keys[i];
      var c' := RemoveManySim(b, s, known, d, m, pre);
      AgreesToOids(m, known, b);
      c := RemoveManyNext(c', s, known, d, m, pre, key);
    }
  }

  lemma RemoveLastSim(b: Ren, s: Store, known: set<Value>, d: Dev, m: Rec2Vid, pre: seq<Handle>, pre': seq<Handle>, key: Handle) returns (c: Ren)
    requires RemoveMany(d.store, pre').Some? <==> RemoveMany(s, pre).Some?
    requires RemoveMany(s, pre).Some? ==> Core(b, RemoveMany(s, pre).value, known, d.(store := RemoveMany(d.store, pre').value), m)
    requires CleanH(m, key) && KeyResolvable(known, key) && RewriteKey(m, key).Some?
    ensures var keys, keys' := pre + [key], pre' + [RewriteKey(m, key).value];
      && (RemoveMany(d.store, keys').Some? <==> RemoveMany(s, keys).Some?)
      && (RemoveMany(s, keys).Some? ==>
           Core(c, RemoveMany(s, keys).value, ForgetOne(known, key), d.(store := RemoveMany(d.store, keys').value), Pop(m, key)))
    ensures Agree(b, c) && c.Keys <= b.Keys
  {
    c := b;
    RemoveManySnoc(s, pre, key);
    RemoveManySnoc(d.store, pre', RewriteKey(m, key).value);
    if RemoveMany(s, pre).Some? {
      c := RemoveOneSim(b, RemoveMany(s, pre).value, known, d.(store := RemoveMany(d.store, pre').value), m, key);
    }
  }

  lemma AgreesToOids(m: Rec2Vid, known: set<Value>, b: Ren)
    requires Agrees(m, known, b)
    ensures OidsToOids(m)
  {
    forall o | Ref(o) in m ensures m[Ref(o)].Ref? { assert Names(m, b, Ref(o)); }
  }

  lemma BulkRemoveSim(b: Ren, r: Recorded, st: State, keys: seq<Handle>) returns (c: Ren)
    requires Sim(b, r, st) && r.pend == []
    ensures BulkRemoveStep(st, keys).Some? ==> Resolvable(r.known, BulkRemove(keys))
    ensures Clean(st.rec2vid, BulkRemove(keys)) ==>
      (BulkRemoveStep(st, keys).Some? <==> Resolvable(r.known, BulkRemove(keys)) && RemoveMany(r.store, keys).Some?)
    ensures Clean(st.rec2vid, BulkRemove(keys)) && BulkRemoveStep(st, keys).Some? ==>
      Sim(c, r.(store := RemoveMany(r.store, keys).value, known := Forget(r.known, keys)), BulkRemoveStep(st, keys).value)
    ensures Agree(b, c)
  {
    c := b;
    AgreesToOids(st.rec2vid, r.known, b);
    PopsResolve(st.rec2vid, r.known, keys);
    if KeysResolvable(r.known, keys) && Clean(st.rec2vid, BulkRemove(keys)) {
      c := RemoveManySim(b, r.store, r.known, st.dev, st.rec2vid, keys);
    }
  }

  // ---------- main theorems ----------

  /**
    A record of a valid recording whose entry keys are clean is replayed without an exception
    exactly when its OIDs can be resolved and the recorded switch accepted it; and then the
    renaming is carried on to the next states.  A record with an unknown OID always raises.
   */
  lemma StepSimulates(p: Profile, b: Ren, r: Recorded, st: State, rec: Record, hidden: seq<seq<Oid>>) returns (c: Ren)
    requires Sim(b, r, st) && RecStep(p, r, rec, hidden).Some?
    ensures Step(p, st, rec).Some? ==> Resolvable(r.known, rec)
    ensures Clean(st.rec2vid, rec) ==> (Step(p, st, rec).Some? <==> Resolvable(r.known, rec) && Accepted(p, r, rec, hidden))
    ensures Clean(st.rec2vid, rec) && Step(p, st, rec).Some? ==> Sim(c, RecStep(p, r, rec, hidden).value, Step(p, st, rec).value)
    ensures Agree(b, c)
  {
    c := b;
    match rec
    case Create(key, attrs) =>
      if key.OidH? {
        c := CreateObjectSim(p, b, r, st, key.oid, attrs, hidden);
      } else {
        CreateEntrySim(p, b, r, st, key.ty, key.key, attrs);
      }
    case SetOne(key, attr) => SetOneSim(b, r, st, key, attr);
    case Remove(key) => c := RemoveSim(b, r, st, key);
    case Get(key, attrs) => GetSim(p, b, r, st, key, attrs, hidden);
    case Reply(attrs) => ReplySim(p, b, r, st, attrs, hidden);
    case Expect(status) =>
    case Ignored =>
    case _ => c := BulkSimulates(p, b, r, st, rec, hidden);
  }

  lemma BulkSimulates(p: Profile, b: Ren, r: Recorded, st: State, rec: Record, hidden: seq<seq<Oid>>) returns (c: Ren)
    requires Sim(b, r, st) && RecStep(p, r, rec, hidden).Some?
    requires rec.BulkCreateObjects? || rec.BulkCreateEntries? || rec.BulkSet? || rec.BulkRemove?
    ensures Step(p, st, rec).Some? ==> Resolvable(r.known, rec)
    ensures Clean(st.rec2vid, rec) ==> (Step(p, st, rec).Some? <==> Resolvable(r.known, rec) && Accepted(p, r, rec, hidden))
    ensures Clean(st.rec2vid, rec) && Step(p, st, rec).Some? ==> Sim(c, RecStep(p, r, rec, hidden).value, Step(p, st, rec).value)
    ensures Agree(b, c)
  {
    c := b;
    match rec
    case BulkCreateObjects(ty, objs) => c := BulkCreateObjectsSim(p, b, r, st, ty, objs, hidden);
    case BulkCreateEntries(ty, entries) => BulkCreateEntriesSim(b, r, st, ty, entries);
    case BulkSet(changes) => BulkSetSim(b, r, st, changes);
    case BulkRemove(keys) => c := BulkRemoveSim(b, r, st, keys);
    case _ =>
  }

  /** The recorded run; each record comes with the hidden OIDs of its companions. */
  ghost function RecRun(p: Profile, r: Recorded, recs: seq<Record>, hidden: seq<seq<seq<Oid>>>): Option<Recorded>
    requires |hidden| == |recs|
  {
    if |recs| == 0 then Some(r)
    else
      var n := |recs| - 1;
      match RecRun(p, r, recs[..n], hidden[..n]) case None => None case Some(r') =>
      RecStep(p, r', recs[n], hidden[n])
  }

  /** Every record of the run names only OIDs the recording has shown before, and was accepted by the recorded switch. */
  ghost predicate AllReplayable(p: Profile, r: Recorded, recs: seq<Record>, hidden: seq<seq<seq<Oid>>>)
    requires |hidden| == |recs|
  {
    |recs| > 0 ==>
      var n := |recs| - 1;
      && AllReplayable(p, r, recs[..n], hidden[..n])
      && RecRun(p, r, recs[..n], hidden[..n]).Some?
      && Replayable(p, RecRun(p, r, recs[..n], hidden[..n]).value, recs[n], hidden[n])
  }

  ghost predicate Replayable(p: Profile, r: Recorded, rec: Record, hidden: seq<seq<Oid>>) {
    Resolvable(r.known, rec) && Accepted(p, r, rec, hidden)
  }

  /** Every record is clean under the rec2vid it meets. */
  ghost predicate AllClean(p: Profile, st: State, recs: seq<Record>) {
    |recs| > 0 ==>
      var n := |recs| - 1;
      AllClean(p, st, recs[..n]) && (Run(p, st, recs[..n]).Some? ==> Clean(Run(p, st, recs[..n]).value.rec2vid, recs[n]))
  }

  /**
    Replay is a simulation.  For any recording a switch can produce, refused calls included, and
    whose entry keys are clean when they are met: the replay raises nothing exactly when every
    record can be resolved and was accepted, and the live switch then holds the recorded
    configuration up to the names of its OIDs, with rec2vid the known part of that renaming.
   */
  lemma {:induction false} RunSimulates(p: Profile, b: Ren, r: Recorded, st: State, recs: seq<Record>, hidden: seq<seq<seq<Oid>>>)
    returns (c: Ren)
    requires Sim(b, r, st) && |hidden| == |recs| && RecRun(p, r, recs, hidden).Some? && AllClean(p, st, recs)
    ensures Run(p, st, recs).Some? <==> AllReplayable(p, r, recs, hidden)
    ensures Run(p, st, recs).Some? ==> Sim(c, RecRun(p, r, recs, hidden).value, Run(p, st, recs).value)
  {
    c := b;
    if |recs| > 0 {
      var n := |recs| - 1;
      c := RunSimulates(p, b, r, st, recs[..n], hidden[..n]);
      if Run(p, st, recs[..n]).Some? {
        c := StepSimulates(p, c, RecRun(p, r, recs[..n], hidden[..n]).value, Run(p, st, recs[..n]).value, recs[n], hidden[n]);
      }
    }
  }
}
