/**
  Two replays of one recording end in the same configuration up to the choice of fresh OIDs,
  and so a bulk record does what its entries do as single records.
 */
module ReplayBulk {
  import opened Wrappers
  import opened SaiStore
  import opened Renaming
  import opened ReplaySpec
  import opened ReplayKeys
  import opened ReplaySim
  import opened ReplayTheorem

  // ---------- from one live switch to the other ----------

  ghost function Back(b: Ren, p: Oid): Oid
    requires p in b.Values
    ensures Back(b, p) in b && b[Back(b, p)] == p
  {
    var o :| o in b && b[o] == p;
    o
  }

  /** The live OID of one replay, sent to the live OID of the other. */
  ghost function Via(b: Ren, c: Ren): Ren {
    map p | p in b.Values && Back(b, p) in c :: c[Back(b, p)]
  }

  lemma ViaMaps(b: Ren, c: Ren, o: Oid)
    requires Bij(b) && b.Keys == c.Keys && o in b
    ensures b[o] in Via(b, c) && Via(b, c)[b[o]] == c[o]
  {
    assert Apart(b, Back(b, b[o]), o);
  }

  lemma ViaIsBij(b: Ren, c: Ren)
    requires Bij(b) && Bij(c) && b.Keys == c.Keys
    ensures Bij(Via(b, c))
  {
    var f := Via(b, c);
    ViaMaps(b, c, Null);
    forall p, q ensures Apart(f, p, q) {
      if p in f && q in f { assert Apart(c, Back(b, p), Back(b, q)); }
    }
    forall p | p in f && p.Vid? ensures f[p].Vid? && f[p].ty == p.ty {
      assert Apart(b, Back(b, p), Null);
    }
  }

  lemma {:induction false} ViaV(b: Ren, c: Ren, v: Value)
    requires Bij(b) && b.Keys == c.Keys && KnownV(b, v)
    ensures KnownV(Via(b, c), RenV(b, v)) && RenV(Via(b, c), RenV(b, v)) == RenV(c, v)
  {
    match v
    case Ref(o) => ViaMaps(b, c, o);
    case RefList(os) =>
      forall i | 0 <= i < |os| ensures b[os[i]] in Via(b, c) && Via(b, c)[b[os[i]]] == c[os[i]] { ViaMaps(b, c, os[i]); }
    case Dict(f) => ViaF(b, c, f);
    case Txt(_) =>
    case Sym(_) =>
  }

  lemma {:induction false} ViaF(b: Ren, c: Ren, f: Fields)
    requires Bij(b) && b.Keys == c.Keys && KnownF(b, f)
    ensures KnownF(Via(b, c), RenF(b, f)) && RenF(Via(b, c), RenF(b, f)) == RenF(c, f)
  {
    match f
    case NoFields =>
    case Field(_, v, rest) =>
      ViaV(b, c, v);
      ViaF(b, c, rest);
  }

  lemma ViaObject(b: Ren, c: Ren, s: Store, t: Store, u: Store, h: Handle)
    requires Bij(b) && b.Keys == c.Keys && Renamed(b, s, t) && Renamed(c, s, u) && h in s
    ensures Carried(Via(b, c), t, u, RenH(b, h)) && RenH(Via(b, c), RenH(b, h)) == RenH(c, h) && RenH(b, h) in t
  {
    assert Carried(b, s, t, h) && Carried(c, s, u, h);
    if h.OidH? { ViaMaps(b, c, h.oid); } else { ViaF(b, c, h.key); }
    var a := s[h];
    forall k | k in a ensures KnownV(Via(b, c), RenA(b, a)[k]) && RenV(Via(b, c), RenA(b, a)[k]) == RenV(c, a[k]) {
      ViaV(b, c, a[k]);
    }
    assert RenA(Via(b, c), RenA(b, a)) == RenA(c, a);
  }

  lemma ViaStores(b: Ren, c: Ren, s: Store, t: Store, u: Store)
    requires Bij(b) && b.Keys == c.Keys && Renamed(b, s, t) && Renamed(c, s, u)
    ensures Renamed(Via(b, c), t, u)
  {
    forall g ensures Carried(Via(b, c), t, u, g) {
      assert Covered(b, s, t, g);
      if g in t {
        var h :| h in s && g == RenH(b, h);
        ViaObject(b, c, s, t, u, h);
      }
    }
    forall g ensures Covered(Via(b, c), t, u, g) {
      assert Covered(c, s, u, g);
      if g in u {
        var h :| h in s && g == RenH(c, h);
        ViaObject(b, c, s, t, u, h);
        assert RenH(b, h) in t && g == RenH(Via(b, c), RenH(b, h));
      }
    }
  }

  /** `f` also takes what one rec2vid says about a recorded OID to what the other says. */
  ghost predicate SameNames(f: Ren, m: Rec2Vid, n: Rec2Vid) {
    && (forall o :: Ref(o) in m <==> Ref(o) in n)
    && (forall o | Ref(o) in m :: m[Ref(o)].Ref? && m[Ref(o)].oid in f && n[Ref(o)] == Ref(f[m[Ref(o)].oid]))
  }

  /** The two states hold the same configuration, up to the choice of fresh OIDs. */
  ghost predicate SameUpToNames(st: State, st': State) {
    exists f :: Bij(f) && Renamed(f, st.dev.store, st'.dev.store) && SameNames(f, st.rec2vid, st'.rec2vid)
  }

  lemma SameNamesVia(b: Ren, c: Ren, m: Rec2Vid, n: Rec2Vid, known: set<Value>, known': set<Value>)
    requires Bij(b) && Bij(c) && b.Keys == c.Keys && Agrees(m, known, b) && Agrees(n, known', c)
    requires forall o :: Ref(o) in known <==> Ref(o) in known'
    ensures SameNames(Via(b, c), m, n)
  {
    forall o | Ref(o) in m ensures m[Ref(o)].Ref? && m[Ref(o)].oid in Via(b, c) && n[Ref(o)] == Ref(Via(b, c)[m[Ref(o)].oid]) {
      assert Names(m, b, Ref(o)) && Names(n, c, Ref(o));
      ViaMaps(b, c, o);
    }
  }

  /** Whatever ids the two live switches picked, they hold the same configuration. */
  lemma ReplaysAgree(b: Ren, c: Ren, r: Recorded, r': Recorded, st: State, st': State)
    requires Sim(b, r, st) && Sim(c, r', st') && r.store == r'.store
    requires forall o :: Ref(o) in r.known <==> Ref(o) in r'.known
    ensures SameUpToNames(st, st')
  {
    assert b.Keys == c.Keys by {
      forall o ensures o in b <==> o in c { assert Tracked(b, r.store, o) && Tracked(c, r'.store, o); }
    }
    ViaIsBij(b, c);
    ViaStores(b, c, r.store, st.dev.store, st'.dev.store);
    SameNamesVia(b, c, st.rec2vid, st'.rec2vid, r.known, r'.known);
  }

  // ---------- the single records of a bulk record ----------

  ghost function Singles(rec: Record): (r: seq<Record>) {
    match rec
    case BulkCreateObjects(ty, objs) => seq(|objs|, i requires 0 <= i < |objs| => Create(OidH(objs[i].oid), objs[i].attrs))
    case BulkCreateEntries(ty, es) => seq(|es|, i requires 0 <= i < |es| => Create(EntryH(ty, es[i].key), es[i].attrs))
    case BulkSet(cs) => seq(|cs|, i requires 0 <= i < |cs| => SetOne(cs[i].key, cs[i].attr))
    case BulkRemove(keys) => seq(|keys|, i requires 0 <= i < |keys| => Remove(keys[i]))
    case _ => [rec]
  }

  ghost function NoneHidden(n: nat): (r: seq<seq<seq<Oid>>>)
    ensures |r| == n
  {
    seq(n, i => [])
  }

  ghost function OneHidden(hidden: seq<seq<Oid>>): (r: seq<seq<seq<Oid>>>)
    ensures |r| == |hidden|
  {
    seq(|hidden|, i requires 0 <= i < |hidden| => [hidden[i]])
  }

  lemma {:induction false} RecRunSnoc(p: Profile, r: Recorded, recs: seq<Record>, hidden: seq<seq<seq<Oid>>>, rec: Record, hid: seq<seq<Oid>>)
    requires |hidden| == |recs|
    ensures RecRun(p, r, recs + [rec], hidden + [hid]) ==
      match RecRun(p, r, recs, hidden) case None => None case Some(r') => RecStep(p, r', rec, hid)
    ensures AllReplayable(p, r, recs + [rec], hidden + [hid]) <==>
      && AllReplayable(p, r, recs, hidden) && RecRun(p, r, recs, hidden).Some?
      && Replayable(p, RecRun(p, r, recs, hidden).value, rec, hid)
  {
    assert (recs + [rec])[..|recs|] == recs && (hidden + [hid])[..|recs|] == hidden;
  }

  lemma {:induction false} RunSnoc(p: Profile, st: State, recs: seq<Record>, rec: Record)
    ensures Run(p, st, recs + [rec]) == match Run(p, st, recs) case None => None case Some(st') => Step(p, st', rec)
    ensures AllClean(p, st, recs + [rec]) <==>
      AllClean(p, st, recs) && (Run(p, st, recs).Some? ==> Clean(Run(p, st, recs).value.rec2vid, rec))
  {
    assert (recs + [rec])[..|recs|] == recs;
  }

  /** A null OID needs no lookup in a bulk record but does in a single one. */
  lemma {:induction false} ExemptResolves(known: set<Value>, attrs: seq<Value>)
    requires AttrsResolvable(known, attrs, false)
    ensures AttrsResolvable(known, attrs, true)
  {
    if |attrs| > 0 { ExemptResolves(known, attrs[..|attrs| - 1]); }
  }

  /** Single entry creates, sets and removes learn no OID. */
  predicate LearnsNothing(rec: Record) {
    (rec.Create? && rec.key.EntryH?) || rec.SetOne? || rec.Remove?
  }

  lemma StepWithin(p: Profile, st: State, rec: Record)
    requires LearnsNothing(rec) && Step(p, st, rec).Some?
    ensures Within(Step(p, st, rec).value.rec2vid, st.rec2vid)
  {
  }

  lemma StaysClean(m': Rec2Vid, m: Rec2Vid, rec: Record)
    requires LearnsNothing(rec) && Within(m', m) && Clean(m, rec)
    ensures Clean(m', rec)
  {
    if rec.key.EntryH? { CleanWithin(m', m, rec.key.key); }
  }

  /** So they are all clean if they are at the start. */
  lemma {:induction false} SinglesClean(p: Profile, st: State, recs: seq<Record>)
    requires forall i | 0 <= i < |recs| :: LearnsNothing(recs[i]) && Clean(st.rec2vid, recs[i])
    ensures AllClean(p, st, recs) && (Run(p, st, recs).Some? ==> Within(Run(p, st, recs).value.rec2vid, st.rec2vid))
  {
    if |recs| > 0 {
      var n := |recs| - 1;
      assert forall i | 0 <= i < n :: recs[..n][i] == recs[i];
      SinglesClean(p, st, recs[..n]);
      if Run(p, st, recs[..n]).Some? { NextClean(p, Run(p, st, recs[..n]).value, st.rec2vid, recs[n]); }
      assert recs == recs[..n] + [recs[n]];
      RunSnoc(p, st, recs[..n], recs[n]);
    }
  }

  lemma NextClean(p: Profile, st: State, m: Rec2Vid, rec: Record)
    requires LearnsNothing(rec) && Clean(m, rec) && Within(st.rec2vid, m)
    ensures Clean(st.rec2vid, rec) && (Step(p, st, rec).Some? ==> Within(Step(p, st, rec).value.rec2vid, m))
  {
    StaysClean(st.rec2vid, m, rec);
    if Step(p, st, rec).Some? { StepWithin(p, st, rec); }
  }

  // ---------- creating objects ----------

  /** Every OID of the batch was known before it: no entry refers to another of the same batch. */
  ghost predicate ObjsIndependent(known: set<Value>, objs: seq<NewObj>) {
    |objs| > 0 ==> ObjsIndependent(known, objs[..|objs| - 1]) && AttrsResolvable(known, objs[|objs| - 1].attrs, false)
  }

  lemma {:induction false} IndependentResolvable(known: set<Value>, objs: seq<NewObj>)
    requires ObjsIndependent(known, objs)
    ensures ObjsResolvable(known, objs)
  {
    if |objs| > 0 {
      IndependentResolvable(known, objs[..|objs| - 1]);
      ExemptResolves(known, objs[|objs| - 1].attrs);
    }
  }

  lemma {:induction false} LearnedGrows(known: set<Value>, os: seq<Oid>)
    requires forall i | 0 <= i < |os| :: os[i].Vid?
    ensures known <= Learned(known, os) && (Ref(Null) in Learned(known, os) ==> Ref(Null) in known)
  {
    if |os| > 0 { LearnedGrows(known, os[..|os| - 1]); }
  }

  /** What a bulk record can look up, a single record can, but for null OIDs; learning names in between changes nothing. */
  lemma {:induction false} NothingNew(known: set<Value>, more: set<Value>, attrs: seq<Value>)
    requires known <= more && (Ref(Null) in more ==> Ref(Null) in known) && AttrsResolvable(known, attrs, true)
    ensures AttrsResolvable(more, attrs, false) <==> AttrsResolvable(known, attrs, false)
  {
    if |attrs| > 0 { NothingNew(known, more, attrs[..|attrs| - 1]); }
  }

  lemma RecStepCreates(p: Profile, r: Recorded, obj: NewObj, hidden: seq<Oid>, s: Store)
    requires obj.oid.Vid? && RecCreateOne(p, r.store, obj.oid.ty, obj, hidden) == Some(s)
    ensures RecStep(p, r, Create(OidH(obj.oid), obj.attrs), [hidden]) == Some(RecNamed(r, obj.oid, s))
  {
  }

  lemma ObjSinglesSnoc(ty: ObjType, objs: seq<NewObj>, hidden: seq<seq<Oid>>, n: nat)
    requires |objs| == |hidden| == n + 1
    ensures Singles(BulkCreateObjects(ty, objs)) ==
      Singles(BulkCreateObjects(ty, objs[..n])) + [Create(OidH(objs[n].oid), objs[n].attrs)]
    ensures OneHidden(hidden) == OneHidden(hidden[..n]) + [[hidden[n]]]
    ensures ObjOids(objs)[..n] == ObjOids(objs[..n])
  {
  }

  lemma {:induction false} CreateSingles(p: Profile, r: Recorded, ty: ObjType, objs: seq<NewObj>, hidden: seq<seq<Oid>>)
    requires |hidden| == |objs| && RecCreateMany(p, r.store, ty, objs, hidden).Some?
    ensures var r' := RecRun(p, r, Singles(BulkCreateObjects(ty, objs)), OneHidden(hidden));
      && r'.Some?
      && r'.value.store == RecCreateMany(p, r.store, ty, objs, hidden).value
      && r'.value.known == Learned(r.known, ObjOids(objs))
  {
    if |objs| > 0 {
      var n := |objs| - 1;
      var s0 := RecCreateManySnoc(p, r.store, ty, objs, hidden, n);
      CreateSingles(p, r, ty, objs[..n], hidden[..n]);
      ObjSinglesSnoc(ty, objs, hidden, n);
      var recs, hids := Singles(BulkCreateObjects(ty, objs[..n])), OneHidden(hidden[..n]);
      CreateSinglesLast(p, r, recs, hids, RecRun(p, r, recs, hids).value, objs[n], hidden[n], RecCreateMany(p, r.store, ty, objs, hidden).value);
    }
  }

  lemma {:induction false} CreateSinglesLast(p: Profile, r: Recorded, recs: seq<Record>, hids: seq<seq<seq<Oid>>>, r0: Recorded, obj: NewObj, hidden: seq<Oid>,
                          s: Store)
    requires |recs| == |hids| && RecRun(p, r, recs, hids) == Some(r0)
    requires obj.oid.Vid? && RecCreateOne(p, r0.store, obj.oid.ty, obj, hidden) == Some(s)
    ensures RecRun(p, r, recs + [Create(OidH(obj.oid), obj.attrs)], hids + [[hidden]]) == Some(RecNamed(r0, obj.oid, s))
  {
    RecRunSnoc(p, r, recs, hids, Create(OidH(obj.oid), obj.attrs), [hidden]);
    RecStepCreates(p, r0, obj, hidden, s);
  }

  lemma {:induction false} MadeOids(p: Profile, s: Store, ty: ObjType, objs: seq<NewObj>, hidden: seq<seq<Oid>>)
    requires |hidden| == |objs| && RecCreateMany(p, s, ty, objs, hidden).Some?
    ensures forall i | 0 <= i < |objs| :: ObjOids(objs)[i].Vid?
  {
    if |objs| > 0 {
      var n := |objs| - 1;
      MadeOids(p, s, ty, objs[..n], hidden[..n]);
      assert forall i | 0 <= i < n :: ObjOids(objs)[i] == ObjOids(objs[..n])[i];
    }
  }

  lemma {:induction false} CreateReplayable(p: Profile, r: Recorded, o: Oid, attrs: seq<Value>, hidden: seq<seq<Oid>>)
    ensures Replayable(p, r, Create(OidH(o), attrs), hidden) <==> AttrsResolvable(r.known, attrs, false)
  {
  }

  /** If the bulk record does not raise, the single records do not either, exactly when the batch is independent. */
  lemma {:induction false} CreateSinglesResolve(p: Profile, r: Recorded, ty: ObjType, objs: seq<NewObj>, hidden: seq<seq<Oid>>)
    requires |hidden| == |objs| && RecCreateMany(p, r.store, ty, objs, hidden).Some? && ObjsResolvable(r.known, objs)
    ensures AllReplayable(p, r, Singles(BulkCreateObjects(ty, objs)), OneHidden(hidden)) <==> ObjsIndependent(r.known, objs)
  {
    if |objs| > 0 {
      var n := |objs| - 1;
      var s0 := RecCreateManySnoc(p, r.store, ty, objs, hidden, n);
      CreateSinglesResolve(p, r, ty, objs[..n], hidden[..n]);
      CreateSingles(p, r, ty, objs[..n], hidden[..n]);
      ObjSinglesSnoc(ty, objs, hidden, n);
      var recs, hids := Singles(BulkCreateObjects(ty, objs[..n])), OneHidden(hidden[..n]);
      RecRunSnoc(p, r, recs, hids, Create(OidH(objs[n].oid), objs[n].attrs), [hidden[n]]);
      CreateReplayable(p, RecRun(p, r, recs, hids).value, objs[n].oid, objs[n].attrs, [hidden[n]]);
      MadeOids(p, r.store, ty, objs[..n], hidden[..n]);
      LearnedGrows(r.known, ObjOids(objs[..n]));
      NothingNew(r.known, Learned(r.known, ObjOids(objs[..n])), objs[n].attrs);
    }
  }

  lemma {:induction false} ObjSinglesClean(p: Profile, st: State, ty: ObjType, objs: seq<NewObj>)
    ensures AllClean(p, st, Singles(BulkCreateObjects(ty, objs)))
  {
    if |objs| > 0 {
      var n := |objs| - 1;
      ObjSinglesClean(p, st, ty, objs[..n]);
      var one := Create(OidH(objs[n].oid), objs[n].attrs);
      assert Singles(BulkCreateObjects(ty, objs)) == Singles(BulkCreateObjects(ty, objs[..n])) + [one];
      RunSnoc(p, st, Singles(BulkCreateObjects(ty, objs[..n])), one);
    }
  }

  /**
    A bulk create and its single creates both succeed exactly when every OID in the batch, null
    ones included, was known before it and the batch was accepted; and then they do the same.
   */
  lemma {:induction false} BulkCreateRefines(p: Profile, b: Ren, r: Recorded, st: State, ty: ObjType, objs: seq<NewObj>, hidden: seq<seq<Oid>>)
    requires Sim(b, r, st) && RecStep(p, r, BulkCreateObjects(ty, objs), hidden).Some? && |objs| > 0
    ensures var bulk, singles := Step(p, st, BulkCreateObjects(ty, objs)), Run(p, st, Singles(BulkCreateObjects(ty, objs)));
      && (bulk.Some? && singles.Some? <==> ObjsIndependent(r.known, objs) && Accepted(p, r, BulkCreateObjects(ty, objs), hidden))
      && (bulk.Some? && singles.Some? ==> SameUpToNames(bulk.value, singles.value))
  {
    var rec := BulkCreateObjects(ty, objs);
    var c := StepSimulates(p, b, r, st, rec, hidden);
    if Accepted(p, r, rec, hidden) {
      CreateSingles(p, r, ty, objs, hidden);
      ObjSinglesClean(p, st, ty, objs);
      var c' := RunSimulates(p, b, r, st, Singles(rec), OneHidden(hidden));
      if ObjsResolvable(r.known, objs) {
        CreateSinglesResolve(p, r, ty, objs, hidden);
      } else if ObjsIndependent(r.known, objs) {
        IndependentResolvable(r.known, objs);
      }
      if Step(p, st, rec).Some? && Run(p, st, Singles(rec)).Some? {
        ReplaysAgree(c, c', RecStep(p, r, rec, hidden).value, RecRun(p, r, Singles(rec), OneHidden(hidden)).value,
          Step(p, st, rec).value, Run(p, st, Singles(rec)).value);
      }
    }
  }

  // ---------- creating entries ----------

  ghost predicate EntriesIndependent(known: set<Value>, entries: seq<NewEntry>) {
    |entries| > 0 ==>
      var e := entries[|entries| - 1];
      && EntriesIndependent(known, entries[..|entries| - 1])
      && AttrsResolvable(known, e.attrs, false) && FieldsResolvable(known, e.key)
  }

  lemma {:induction false} IndependentEntries(known: set<Value>, entries: seq<NewEntry>)
    requires EntriesIndependent(known, entries)
    ensures EntriesResolvable(known, entries)
  {
    if |entries| > 0 {
      IndependentEntries(known, entries[..|entries| - 1]);
      ExemptResolves(known, entries[|entries| - 1].attrs);
    }
  }

  lemma RecStepEntry(p: Profile, r: Recorded, ty: ObjType, e: NewEntry)
    requires Plain(e.attrs)
    ensures RecStep(p, r, Create(EntryH(ty, e.key), e.attrs), []) == Some(RecCreateEntry(r, ty, e.key, e.attrs))
  {
  }

  lemma EntrySinglesSnoc(ty: ObjType, entries: seq<NewEntry>, n: nat)
    requires |entries| == n + 1
    ensures Singles(BulkCreateEntries(ty, entries)) ==
      Singles(BulkCreateEntries(ty, entries[..n])) + [Create(EntryH(ty, entries[n].key), entries[n].attrs)]
    ensures NoneHidden(n + 1) == NoneHidden(n) + [[]]
  {
  }

  /** Names of entries have been learned, and no other. */
  ghost predicate OnlyTexts(known: set<Value>, more: set<Value>) {
    known <= more && forall v | v in more && !v.Dict? :: v in known
  }

  lemma {:induction false} TextsResolveNothing(known: set<Value>, more: set<Value>, attrs: seq<Value>)
    requires OnlyTexts(known, more) && Plain(attrs)
    ensures AttrsResolvable(more, attrs, false) <==> AttrsResolvable(known, attrs, false)
  {
    if |attrs| > 0 { TextsResolveNothing(known, more, attrs[..|attrs| - 1]); }
  }

  lemma {:induction false} TextsResolveNoField(known: set<Value>, more: set<Value>, f: Fields)
    requires OnlyTexts(known, more)
    ensures FieldsResolvable(more, f) <==> FieldsResolvable(known, f)
  {
    match f
    case NoFields =>
    case Field(_, v, rest) =>
      if v.Dict? { TextsResolveNoField(known, more, v.fields); }
      TextsResolveNoField(known, more, rest);
  }

  lemma {:induction false} EntrySingles(p: Profile, r: Recorded, ty: ObjType, entries: seq<NewEntry>)
    requires CreateEntries(r.store, ty, entries).Some? && PlainEntries(entries)
    ensures var r' := RecRun(p, r, Singles(BulkCreateEntries(ty, entries)), NoneHidden(|entries|));
      && r'.Some?
      && r'.value.store == CreateEntries(r.store, ty, entries).value
      && OnlyTexts(r.known, r'.value.known)
    ensures AllReplayable(p, r, Singles(BulkCreateEntries(ty, entries)), NoneHidden(|entries|)) <==> EntriesIndependent(r.known, entries)
  {
    if |entries| > 0 {
      var n := |entries| - 1;
      var pre, e := entries[..n], entries[n];
      assert PlainEntries(pre);
      EntrySingles(p, r, ty, pre);
      EntrySinglesSnoc(ty, entries, n);
      var recs := Singles(BulkCreateEntries(ty, pre));
      var r0 := RecRun(p, r, recs, NoneHidden(n)).value;
      RecRunSnoc(p, r, recs, NoneHidden(n), Create(EntryH(ty, e.key), e.attrs), []);
      RecStepEntry(p, r0, ty, e);
      TextsResolveNothing(r.known, r0.known, e.attrs);
      TextsResolveNoField(r.known, r0.known, e.key);
    }
  }

  /** The same for entries. */
  lemma {:induction false} BulkEntriesRefine(p: Profile, b: Ren, r: Recorded, st: State, ty: ObjType, entries: seq<NewEntry>, hidden: seq<seq<Oid>>)
    requires Sim(b, r, st) && RecStep(p, r, BulkCreateEntries(ty, entries), hidden).Some? && |entries| > 0
    requires Clean(st.rec2vid, BulkCreateEntries(ty, entries))
    ensures var bulk, singles := Step(p, st, BulkCreateEntries(ty, entries)), Run(p, st, Singles(BulkCreateEntries(ty, entries)));
      && (bulk.Some? && singles.Some? <==> EntriesIndependent(r.known, entries) && Accepted(p, r, BulkCreateEntries(ty, entries), hidden))
      && (bulk.Some? && singles.Some? ==> SameUpToNames(bulk.value, singles.value))
  {
    var rec := BulkCreateEntries(ty, entries);
    if EntriesIndependent(r.known, entries) { IndependentEntries(r.known, entries); }
    var c := StepSimulates(p, b, r, st, rec, hidden);
    if Accepted(p, r, rec, hidden) {
      EntrySingles(p, r, ty, entries);
      SinglesClean(p, st, Singles(rec));
      var c' := RunSimulates(p, b, r, st, Singles(rec), NoneHidden(|entries|));
      if Step(p, st, rec).Some? && Run(p, st, Singles(rec)).Some? {
        ReplaysAgree(c, c', RecStep(p, r, rec, hidden).value, RecRun(p, r, Singles(rec), NoneHidden(|entries|)).value,
          Step(p, st, rec).value, Run(p, st, Singles(rec)).value);
      }
    }
  }

  // ---------- setting attributes ----------

  ghost predicate ChangesIndependent(known: set<Value>, changes: seq<Change>) {
    |changes| > 0 ==>
      ChangesIndependent(known, changes[..|changes| - 1]) && ChangeResolvable(known, changes[|changes| - 1], false)
  }

  lemma {:induction false} IndependentChanges(known: set<Value>, changes: seq<Change>)
    requires ChangesIndependent(known, changes)
    ensures ChangesResolvable(known, changes)
  {
    if |changes| > 0 {
      IndependentChanges(known, changes[..|changes| - 1]);
      ExemptResolves(known, changes[|changes| - 1].attr);
    }
  }

  lemma RecStepSets(p: Profile, r: Recorded, c: Change)
    requires Plain(c.attr) && SaiStore.SetAttr(r.store, c.key, c.attr).0 == Success
    ensures RecStep(p, r, SetOne(c.key, c.attr), []) == Some(r.(store := SaiStore.SetAttr(r.store, c.key, c.attr).1))
  {
  }

  lemma SetSinglesSnoc(changes: seq<Change>, n: nat)
    requires |changes| == n + 1
    ensures Singles(BulkSet(changes)) == Singles(BulkSet(changes[..n])) + [SetOne(changes[n].key, changes[n].attr)]
    ensures NoneHidden(n + 1) == NoneHidden(n) + [[]]
  {
  }

  lemma {:induction false} SetSingles(p: Profile, r: Recorded, changes: seq<Change>)
    requires SetMany(r.store, changes).Some? && PlainChanges(changes)
    ensures RecRun(p, r, Singles(BulkSet(changes)), NoneHidden(|changes|)) == Some(r.(store := SetMany(r.store, changes).value))
    ensures AllReplayable(p, r, Singles(BulkSet(changes)), NoneHidden(|changes|)) <==> ChangesIndependent(r.known, changes)
  {
    if |changes| > 0 {
      var n := |changes| - 1;
      var pre := changes[..n];
      assert PlainChanges(pre);
      SetSingles(p, r, pre);
      SetSinglesSnoc(changes, n);
      SetSinglesLast(p, r, Singles(BulkSet(pre)), NoneHidden(n), r.(store := SetMany(r.store, pre).value), changes[n]);
    }
  }

  lemma {:induction false} SetSinglesLast(p: Profile, r: Recorded, recs: seq<Record>, hids: seq<seq<seq<Oid>>>, r0: Recorded, c: Change)
    requires |recs| == |hids| && RecRun(p, r, recs, hids) == Some(r0)
    requires Plain(c.attr) && SaiStore.SetAttr(r0.store, c.key, c.attr).0 == Success
    ensures RecRun(p, r, recs + [SetOne(c.key, c.attr)], hids + [[]]) == Some(r0.(store := SaiStore.SetAttr(r0.store, c.key, c.attr).1))
    ensures AllReplayable(p, r, recs + [SetOne(c.key, c.attr)], hids + [[]]) <==>
      AllReplayable(p, r, recs, hids) && ChangeResolvable(r0.known, c, false)
  {
    RecRunSnoc(p, r, recs, hids, SetOne(c.key, c.attr), []);
    RecStepSets(p, r0, c);
  }

  /** The same for sets. */
  lemma {:induction false} BulkSetRefines(p: Profile, b: Ren, r: Recorded, st: State, changes: seq<Change>, hidden: seq<seq<Oid>>)
    requires Sim(b, r, st) && RecStep(p, r, BulkSet(changes), hidden).Some? && Clean(st.rec2vid, BulkSet(changes))
    ensures var bulk, singles := Step(p, st, BulkSet(changes)), Run(p, st, Singles(BulkSet(changes)));
      && (bulk.Some? && singles.Some? <==> ChangesIndependent(r.known, changes) && Accepted(p, r, BulkSet(changes), hidden))
      && (bulk.Some? && singles.Some? ==> SameUpToNames(bulk.value, singles.value))
  {
    var rec := BulkSet(changes);
    if ChangesIndependent(r.known, changes) { IndependentChanges(r.known, changes); }
    var c := StepSimulates(p, b, r, st, rec, hidden);
    if Accepted(p, r, rec, hidden) {
      SetSingles(p, r, changes);
      SinglesClean(p, st, Singles(rec));
      var c' := RunSimulates(p, b, r, st, Singles(rec), NoneHidden(|changes|));
      if Step(p, st, rec).Some? && Run(p, st, Singles(rec)).Some? {
        ReplaysAgree(c, c', RecStep(p, r, rec, hidden).value, RecRun(p, r, Singles(rec), NoneHidden(|changes|)).value,
          Step(p, st, rec).value, Run(p, st, Singles(rec)).value);
      }
    }
  }

  // ---------- removing ----------

  lemma RemoveSinglesSnoc(keys: seq<Handle>, n: nat)
    requires |keys| == n + 1
    ensures Singles(BulkRemove(keys)) == Singles(BulkRemove(keys[..n])) + [Remove(keys[n])]
    ensures NoneHidden(n + 1) == NoneHidden(n) + [[]]
  {
  }

  lemma {:induction false} RemoveSingles(p: Profile, r: Recorded, keys: seq<Handle>)
    requires r.pend == []
    ensures var r' := RecRun(p, r, Singles(BulkRemove(keys)), NoneHidden(|keys|));
      && r'.Some? && r'.value.pend == []
      && (RemoveMany(r.store, keys).Some? ==> r' == Some(r.(store := RemoveMany(r.store, keys).value, known := Forget(r.known, keys))))
    ensures AllReplayable(p, r, Singles(BulkRemove(keys)), NoneHidden(|keys|)) <==>
      KeysResolvable(r.known, keys) && RemoveMany(r.store, keys).Some?
  {
    if |keys| > 0 {
      var n := |keys| - 1;
      var pre := keys[..n];
      RemoveSingles(p, r, pre);
      RemoveSinglesNext(p, r, pre, keys[n]);
      assert keys == pre + [keys[n]];
      RemoveManySnoc(r.store, pre, keys[n]);
    }
  }

  lemma {:induction false} RemoveSinglesNext(p: Profile, r: Recorded, pre: seq<Handle>, key: Handle)
    requires RecRun(p, r, Singles(BulkRemove(pre)), NoneHidden(|pre|)).Some?
    requires RecRun(p, r, Singles(BulkRemove(pre)), NoneHidden(|pre|)).value.pend == []
    ensures var keys, r' := pre + [key], RecRun(p, r, Singles(BulkRemove(pre)), NoneHidden(|pre|)).value;
      && RecRun(p, r, Singles(BulkRemove(keys)), NoneHidden(|keys|)) == RecStep(p, r', Remove(key), [])
      && RecStep(p, r', Remove(key), []) == Some(if RemoveObj(r'.store, key).0 == Success
           then r'.(store := RemoveObj(r'.store, key).1, known := ForgetOne(r'.known, key)) else Refused(r'))
      && (AllReplayable(p, r, Singles(BulkRemove(keys)), NoneHidden(|keys|)) <==>
           && AllReplayable(p, r, Singles(BulkRemove(pre)), NoneHidden(|pre|))
           && KeyResolvable(r'.known, key) && RemoveObj(r'.store, key).0 == Success)
  {
    var keys := pre + [key];
    assert keys[..|pre|] == pre;
    RemoveSinglesSnoc(keys, |pre|);
    RecRunSnoc(p, r, Singles(BulkRemove(pre)), NoneHidden(|pre|), Remove(key), []);
  }

  /** A bulk remove needs no condition: it raises exactly when the single removes do. */
  lemma {:induction false} BulkRemoveRefines(p: Profile, b: Ren, r: Recorded, st: State, keys: seq<Handle>, hidden: seq<seq<Oid>>)
    requires Sim(b, r, st) && RecStep(p, r, BulkRemove(keys), hidden).Some? && Clean(st.rec2vid, BulkRemove(keys))
    ensures var bulk, singles := Step(p, st, BulkRemove(keys)), Run(p, st, Singles(BulkRemove(keys)));
      && (bulk.Some? <==> singles.Some?)
      && (bulk.Some? ==> SameUpToNames(bulk.value, singles.value))
  {
    var rec := BulkRemove(keys);
    var c := StepSimulates(p, b, r, st, rec, hidden);
    RemoveSingles(p, r, keys);
    SinglesClean(p, st, Singles(rec));
    var c' := RunSimulates(p, b, r, st, Singles(rec), NoneHidden(|keys|));
    if Step(p, st, rec).Some? {
      ReplaysAgree(c, c', RecStep(p, r, rec, hidden).value, RecRun(p, r, Singles(rec), NoneHidden(|keys|)).value,
        Step(p, st, rec).value, Run(p, st, Singles(rec)).value);
    }
  }

  // ---------- a whole replay ----------

  ghost const NOTHING_RENAMED: Ren := map[Null := Null]

  ghost const NOTHING_RECORDED := Recorded(map[], [], None, {}, false)

  /** apply_rec starts by clearing the switch and rec2vid. */
  function Cleared(next: nat): State {
    State(Dev(map[], next), map[], [], None)
  }

  lemma InitialSim(next: nat)
    ensures Sim(NOTHING_RENAMED, NOTHING_RECORDED, Cleared(next))
  {
    forall o, p ensures Apart(NOTHING_RENAMED, o, p) {}
    forall h ensures Carried(NOTHING_RENAMED, map[], map[], h) && Covered(NOTHING_RENAMED, map[], map[], h) {}
  }

  // ---------- recordings whose keys are always clean ----------

  /** Different OIDs of the key are of different types. */
  ghost predicate TypedKey(f: Fields) {
    forall i, k | 0 <= i < |OidTokens(f)| && 0 <= k < |OidTokens(f)| :: TypedPair(OidTokens(f)[i], OidTokens(f)[k])
  }

  predicate TypedPair(v: Value, w: Value) {
    v.Ref? && w.Ref? && v != w && v.oid.Vid? && w.oid.Vid? ==> v.oid.ty != w.oid.ty
  }

  ghost predicate TypedH(key: Handle) {
    key.EntryH? ==> TypedKey(key.key)
  }

  ghost predicate Typed(rec: Record) {
    match rec
    case Create(key, _) => TypedH(key)
    case SetOne(key, _) => TypedH(key)
    case Remove(key) => TypedH(key)
    case Get(key, _) => TypedH(key)
    case BulkCreateEntries(_, entries) => forall i | 0 <= i < |entries| :: TypedKey(entries[i].key)
    case BulkSet(changes) => forall i | 0 <= i < |changes| :: TypedH(changes[i].key)
    case BulkRemove(keys) => forall i | 0 <= i < |keys| :: TypedH(keys[i])
    case _ => true
  }

  ghost predicate AllTyped(recs: seq<Record>) {
    forall i | 0 <= i < |recs| :: Typed(recs[i])
  }

  /** Since counterparts keep the type, no counterpart is another OID of the key. */
  lemma TypedIsCleanKey(m: Rec2Vid, known: set<Value>, b: Ren, f: Fields)
    requires Bij(b) && Agrees(m, known, b) && TypedKey(f)
    ensures CleanKey(m, f)
  {
    var tokens := OidTokens(f);
    TokensOfKey(f);
    forall i: nat, k: nat | k < |tokens| ensures !Chained(m, tokens, i, k) {
      if i < k {
        assert Names(m, b, tokens[i]) && Names(m, b, tokens[k]) && TypedPair(tokens[i], tokens[k]);
      }
    }
  }

  lemma TypedIsClean(m: Rec2Vid, known: set<Value>, b: Ren, rec: Record)
    requires Bij(b) && Agrees(m, known, b) && Typed(rec)
    ensures Clean(m, rec)
  {
    forall f | TypedKey(f) ensures CleanKey(m, f) { TypedIsCleanKey(m, known, b, f); }
  }

  lemma {:induction false} TypedRunIsClean(p: Profile, b: Ren, r: Recorded, st: State, recs: seq<Record>, hidden: seq<seq<seq<Oid>>>)
    requires Sim(b, r, st) && |hidden| == |recs| && RecRun(p, r, recs, hidden).Some? && AllTyped(recs)
    ensures AllClean(p, st, recs)
  {
    if |recs| > 0 {
      var n := |recs| - 1;
      assert forall i | 0 <= i < n :: recs[..n][i] == recs[i];
      TypedRunIsClean(p, b, r, st, recs[..n], hidden[..n]);
      var c := RunSimulates(p, b, r, st, recs[..n], hidden[..n]);
      if Run(p, st, recs[..n]).Some? {
        TypedIsClean(Run(p, st, recs[..n]).value.rec2vid, RecRun(p, r, recs[..n], hidden[..n]).value.known, c, recs[n]);
      }
    }
  }

  lemma {:induction false} CleanPrefix(p: Profile, st: State, recs: seq<Record>, n: nat)
    requires n <= |recs| && AllClean(p, st, recs)
    ensures AllClean(p, st, recs[..n])
  {
    if n < |recs| {
      CleanPrefix(p, st, recs[..|recs| - 1], n);
      assert recs[..|recs| - 1][..n] == recs[..n];
    } else {
      assert recs[..n] == recs;
    }
  }

  /**
    Replaying a whole recording on a cleared switch.  Its entry keys have OIDs of different types,
    or are at least clean when they are met.  Then nothing is raised exactly when every record
    names only OIDs seen before and was accepted by the recorded switch; and at that point and at
    every prefix before it the live store is the recorded one renamed, and rec2vid knows exactly
    the OIDs the recording has shown.
   */
  lemma ReplayTheoremFromStart(p: Profile, next: nat, recs: seq<Record>, hidden: seq<seq<seq<Oid>>>, n: nat) returns (c: Ren)
    requires |hidden| == |recs| && n <= |recs|
    requires RecRun(p, NOTHING_RECORDED, recs, hidden).Some? && (AllTyped(recs) || AllClean(p, Cleared(next), recs))
    ensures var r, st := RecRun(p, NOTHING_RECORDED, recs[..n], hidden[..n]),
                         Run(p, Cleared(next), recs[..n]);
      && r.Some?
      && (st.Some? <==> AllReplayable(p, NOTHING_RECORDED, recs[..n], hidden[..n]))
      && (st.Some? ==> Sim(c, r.value, st.value))
  {
    InitialSim(next);
    RecRunPrefix(p, NOTHING_RECORDED, recs, hidden, n);
    if AllTyped(recs) { TypedRunIsClean(p, NOTHING_RENAMED, NOTHING_RECORDED, Cleared(next), recs, hidden); }
    CleanPrefix(p, Cleared(next), recs, n);
    c := RunSimulates(p, NOTHING_RENAMED, NOTHING_RECORDED, Cleared(next), recs[..n], hidden[..n]);
  }

  lemma {:induction false} RecRunPrefix(p: Profile, r: Recorded, recs: seq<Record>, hidden: seq<seq<seq<Oid>>>, n: nat)
    requires |hidden| == |recs| && n <= |recs| && RecRun(p, r, recs, hidden).Some?
    ensures RecRun(p, r, recs[..n], hidden[..n]).Some?
  {
    if n < |recs| {
      RecRunPrefix(p, r, recs[..|recs| - 1], hidden[..|recs| - 1], n);
      assert recs[..|recs| - 1][..n] == recs[..n] && hidden[..|recs| - 1][..n] == hidden[..n];
    } else {
      assert recs[..n] == recs && hidden[..n] == hidden;
    }
  }

  /** Two replays of one recording, from any two counters, end in the same configuration. */
  lemma {:induction false} ReplayIsDeterministicUpToNames(p: Profile, next: nat, next': nat, recs: seq<Record>, hidden: seq<seq<seq<Oid>>>)
    requires |hidden| == |recs| && RecRun(p, NOTHING_RECORDED, recs, hidden).Some?
    requires AllTyped(recs) || (AllClean(p, Cleared(next), recs) && AllClean(p, Cleared(next'), recs))
    ensures var st, st' := Run(p, Cleared(next), recs), Run(p, Cleared(next'), recs);
      && (st.Some? <==> st'.Some?)
      && (st.Some? ==> SameUpToNames(st.value, st'.value))
  {
    assert recs[..|recs|] == recs && hidden[..|recs|] == hidden;
    var c := ReplayTheoremFromStart(p, next, recs, hidden, |recs|);
    var c' := ReplayTheoremFromStart(p, next', recs, hidden, |recs|);
    var r := RecRun(p, NOTHING_RECORDED, recs, hidden).value;
    var st, st' := Run(p, Cleared(next), recs), Run(p, Cleared(next'), recs);
    if st.Some? { ReplaysAgree(c, c', r, r, st.value, st'.value); }
  }
}
