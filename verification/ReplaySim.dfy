/**
  The recorded switch, and the relation between it and the live switch during a replay: the
  live store is the recorded one with its OIDs renamed, and `rec2vid` is the part of that
  renaming the recording has shown so far.
 */
module ReplaySim {
  import opened Wrappers
  import opened SaiStore
  import opened Renaming
  import opened ReplaySpec
  import opened ReplayKeys

  // ---------- what the recorded switch did ----------

  /**
    `pend`: OIDs of the last reply, `known`: recorded texts that name something so far, `status`: of
    the last create or read, `refused`: a set, a remove or a bulk call has been refused.
   */
  datatype Recorded = Recorded(store: Store, pend: seq<Oid>, status: Option<Status>, known: set<Value>, refused: bool)

  /** Attribute lists of a recording: names at even places, no JSON objects as values. */
  ghost predicate Plain(attrs: seq<Value>) {
    forall i | 0 <= i < |attrs| :: if i % 2 == 0 then attrs[i].Txt? else !attrs[i].Dict?
  }

  ghost predicate FreshIn(s: Store, ids: seq<Oid>) {
    && (forall i | 0 <= i < |ids| :: ids[i].Vid? && OidH(ids[i]) !in s)
    && (forall i, j | 0 <= i < j < |ids| :: ids[i] != ids[j])
  }

  /** The ids the recorded switch used for an object and its companions. */
  ghost predicate ValidIds(p: Profile, s: Store, ids: seq<Oid>) {
    IdsFor(p, ids) && FreshIn(s, ids)
  }

  ghost function RecCreateMany(p: Profile, s: Store, ty: ObjType, objs: seq<NewObj>, hidden: seq<seq<Oid>>): Option<Store>
    requires |hidden| == |objs|
  {
    if |objs| == 0 then Some(s)
    else
      var n := |objs| - 1;
      match RecCreateMany(p, s, ty, objs[..n], hidden[..n]) case None => None case Some(s') =>
      RecCreateOne(p, s', ty, objs[n], hidden[n])
  }

  ghost function RecCreateOne(p: Profile, s: Store, ty: ObjType, obj: NewObj, hidden: seq<Oid>): Option<Store> {
    var ids := [obj.oid] + hidden;
    if Plain(obj.attrs) && ValidIds(p, s, ids) && ids[0].ty == ty && CreateStatus(s, OidH(obj.oid), obj.attrs) == Success
    then Some(WithObject(p, s, ids, obj.attrs)) else None
  }

  /** What is known once these OIDs have been named. */
  ghost function Learned(known: set<Value>, os: seq<Oid>): set<Value> {
    if |os| == 0 then known else Learned(known, os[..|os| - 1]) + {Ref(os[|os| - 1])}
  }

  /** What is still known once these keys are removed. */
  ghost function Forget(known: set<Value>, keys: seq<Handle>): set<Value> {
    if |keys| == 0 then known else ForgetOne(Forget(known, keys[..|keys| - 1]), keys[|keys| - 1])
  }

  ghost function ForgetOne(known: set<Value>, key: Handle): set<Value> {
    if key.OidH? then known - {Ref(key.oid)} else known
  }

  ghost predicate PlainEntries(entries: seq<NewEntry>) {
    forall i | 0 <= i < |entries| :: Plain(entries[i].attrs)
  }

  ghost predicate PlainChanges(changes: seq<Change>) {
    forall i | 0 <= i < |changes| :: Plain(changes[i].attr)
  }

  /** Ids and attributes the recorded switch may see in a bulk create, accepted or not. */
  ghost predicate BatchFits(p: Profile, s: Store, ty: ObjType, objs: seq<NewObj>, hidden: seq<seq<Oid>>)
    requires |hidden| == |objs|
  {
    |objs| > 0 ==>
      var n := |objs| - 1;
      var pre := RecCreateMany(p, s, ty, objs[..n], hidden[..n]);
      && BatchFits(p, s, ty, objs[..n], hidden[..n]) && Plain(objs[n].attrs)
      && (pre.Some? ==> ValidIds(p, pre.value, [objs[n].oid] + hidden[n]) && objs[n].oid.ty == ty)
  }

  /**
    One step of the recorded switch; `hidden` are the OIDs of companion objects, which the
    record does not show.  None: the record cannot come from this switch in this state.
    What a refused bulk call leaves behind does not matter, since no replay gets past it.
   */
  ghost function RecStep(p: Profile, r: Recorded, rec: Record, hidden: seq<seq<Oid>>): Option<Recorded> {
    match rec
    case Create(key, attrs) =>
      if !Plain(attrs) then None
      else if key.OidH? then RecCreateObject(p, r, key.oid, attrs, hidden)
      else Some(RecCreateEntry(r, key.ty, key.key, attrs))
    case SetOne(key, attr) =>
      var (status, s) := SaiStore.SetAttr(r.store, key, attr);
      if Plain(attr) then Some(if status == Success then r.(store := s) else Refused(r)) else None
    case Remove(key) =>
      var (status, s) := RemoveObj(r.store, key);
      if r.pend != [] then None
      else Some(if status == Success then r.(store := s, known := ForgetOne(r.known, key)) else Refused(r))
    case Get(key, attrs) =>
      var (status, reply) := GetAttrs(r.store, key, attrs);
      Some(r.(status := Some(status), pend := if status == Success then r.pend + OidsOf(reply) else r.pend))
    case Reply(attrs) =>
      if OidsOf(attrs) == r.pend then Some(r.(pend := [], known := Learned(r.known, r.pend))) else None
    case Expect(status) =>
      if r.refused || r.status == Some(status) then Some(r) else None
    case BulkCreateObjects(ty, objs) => (
      if |hidden| != |objs| || !BatchFits(p, r.store, ty, objs, hidden) then None
      else
        match RecCreateMany(p, r.store, ty, objs, hidden) case None => Some(Refused(r)) case Some(s) =>
        Some(RecCreated(r, objs, s)))
    case BulkCreateEntries(ty, entries) => (
      if !PlainEntries(entries) then None
      else
        match CreateEntries(r.store, ty, entries) case None => Some(Refused(r)) case Some(s) =>
        Some(r.(store := s)))
    case BulkSet(changes) => (
      if !PlainChanges(changes) then None
      else
        match SetMany(r.store, changes) case None => Some(Refused(r)) case Some(s) =>
        Some(r.(store := s)))
    case BulkRemove(keys) => (
      if r.pend != [] then None
      else
        match RemoveMany(r.store, keys) case None => Some(Refused(r)) case Some(s) =>
        Some(r.(store := s, known := Forget(r.known, keys))))
    case Ignored => Some(r)
  }

  ghost function Refused(r: Recorded): Recorded {
    r.(refused := true)
  }

  /** The recorded switch accepted the call; a refused create or read does not stop a replay. */
  ghost predicate Accepted(p: Profile, r: Recorded, rec: Record, hidden: seq<seq<Oid>>) {
    match rec
    case SetOne(key, attr) => SaiStore.SetAttr(r.store, key, attr).0 == Success
    case Remove(key) => RemoveObj(r.store, key).0 == Success
    case BulkCreateObjects(ty, objs) => |hidden| == |objs| && RecCreateMany(p, r.store, ty, objs, hidden).Some?
    case BulkCreateEntries(ty, entries) => CreateEntries(r.store, ty, entries).Some?
    case BulkSet(changes) => SetMany(r.store, changes).Some?
    case BulkRemove(keys) => RemoveMany(r.store, keys).Some?
    case _ => true
  }

  /** The recorded switch may have refused the create; its OID is then not learned. */
  ghost function RecCreateObject(p: Profile, r: Recorded, o: Oid, attrs: seq<Value>, hidden: seq<seq<Oid>>): Option<Recorded> {
    if |hidden| != 1 || !ValidIds(p, r.store, [o] + hidden[0]) then None
    else
      var status := CreateStatus(r.store, OidH(o), attrs);
      Some(if status == Success then RecNamed(r, o, WithObject(p, r.store, [o] + hidden[0], attrs)) else r.(status := Some(status)))
  }

  ghost function RecNamed(r: Recorded, o: Oid, s: Store): Recorded {
    r.(store := s, status := Some(Success), known := r.known + {Ref(o)})
  }

  ghost function RecCreateEntry(r: Recorded, ty: ObjType, f: Fields, attrs: seq<Value>): Recorded {
    var (status, s) := CreateEntry(r.store, ty, f, attrs);
    r.(store := s, status := Some(status), known := if status == Success then r.known + {Dict(f)} else r.known)
  }

  ghost function RecCreated(r: Recorded, objs: seq<NewObj>, s: Store): Recorded {
    r.(store := s, known := Learned(r.known, ObjOids(objs)))
  }

  // ---------- which records the replay can resolve ----------

  ghost predicate AttrsResolvable(known: set<Value>, attrs: seq<Value>, exemptNull: bool) {
    |attrs| > 0 ==>
      var n := |attrs| - 1;
      && AttrsResolvable(known, attrs[..n], exemptNull)
      && (NeedsLookup(attrs[n], n, exemptNull) ==> attrs[n] in known)
  }

  ghost predicate FieldsResolvable(known: set<Value>, f: Fields) {
    match f
    case NoFields => true
    case Field(_, v, rest) =>
      && (if v.Dict? then FieldsResolvable(known, v.fields) else HasOid(v) ==> v in known)
      && FieldsResolvable(known, rest)
  }

  ghost predicate KeyResolvable(known: set<Value>, key: Handle) {
    match key
    case OidH(o) => Ref(o) in known
    case EntryH(_, f) => FieldsResolvable(known, f)
  }

  /** In a bulk record every lookup happens before the first new name is learned. */
  ghost predicate ObjsResolvable(known: set<Value>, objs: seq<NewObj>) {
    |objs| > 0 ==>
      ObjsResolvable(known, objs[..|objs| - 1]) && AttrsResolvable(known, objs[|objs| - 1].attrs, true)
  }

  ghost predicate EntriesResolvable(known: set<Value>, entries: seq<NewEntry>) {
    |entries| > 0 ==>
      var e := entries[|entries| - 1];
      EntriesResolvable(known, entries[..|entries| - 1]) && AttrsResolvable(known, e.attrs, true) && FieldsResolvable(known, e.key)
  }

  ghost predicate ChangeResolvable(known: set<Value>, c: Change, exemptNull: bool) {
    AttrsResolvable(known, c.attr, exemptNull) && KeyResolvable(known, c.key)
  }

  ghost predicate ChangesResolvable(known: set<Value>, changes: seq<Change>) {
    |changes| > 0 ==>
      ChangesResolvable(known, changes[..|changes| - 1]) && ChangeResolvable(known, changes[|changes| - 1], true)
  }

  ghost predicate KeysResolvable(known: set<Value>, keys: seq<Handle>) {
    |keys| > 0 ==>
      && KeysResolvable(known, keys[..|keys| - 1])
      && KeyResolvable(Forget(known, keys[..|keys| - 1]), keys[|keys| - 1])
  }

  /** Every OID the record mentions is named alone and has been seen before. */
  ghost predicate Resolvable(known: set<Value>, rec: Record) {
    match rec
    case Create(key, attrs) => AttrsResolvable(known, attrs, false) && (key.EntryH? ==> KeyResolvable(known, key))
    case SetOne(key, attr) => ChangeResolvable(known, Change(key, attr), false)
    case Remove(key) => KeyResolvable(known, key)
    case Get(key, _) => KeyResolvable(known, key)
    case Reply(_) => true
    case Expect(_) => true
    case BulkCreateObjects(_, objs) => |objs| > 0 && ObjsResolvable(known, objs)
    case BulkCreateEntries(_, entries) => |entries| > 0 && EntriesResolvable(known, entries)
    case BulkSet(changes) => ChangesResolvable(known, changes)
    case BulkRemove(keys) => KeysResolvable(known, keys)
    case Ignored => true
  }

  // ---------- the simulation relation ----------

  /** An OID that is a key of rec2vid leads to its image, and no list of OIDs is a key. */
  ghost predicate Names(m: Rec2Vid, b: Ren, v: Value) {
    v in m ==> match v
      case Ref(o) => o in b && m[v] == Ref(b[o])
      case Dict(_) => true
      case _ => false
  }

  /** On OIDs `m` is exactly `b` restricted to the known ones; its other keys are entry texts. */
  ghost predicate Agrees(m: Rec2Vid, known: set<Value>, b: Ren) {
    m.Keys == known && forall v :: Names(m, b, v)
  }

  ghost predicate Tracked(b: Ren, s: Store, o: Oid) {
    o in b <==> o == Null || OidH(o) in s
  }

  /** `b` is defined on exactly the live recorded OIDs and renames one store into the other. */
  ghost predicate Stores(b: Ren, s: Store, t: Store) {
    && Bij(b)
    && OidH(Null) !in s
    && (forall o :: Tracked(b, s, o))
    && Renamed(b, s, t)
  }

  /** The live id behind `o` is below `next` and outside the reserved range [lo, hi). */
  ghost predicate Outside(b: Ren, o: Oid, next: nat, lo: nat, hi: nat) {
    o in b && b[o].Vid? ==> b[o].num < next && !(lo <= b[o].num < hi)
  }

  ghost predicate Avoids(b: Ren, next: nat, lo: nat, hi: nat) {
    forall o :: Outside(b, o, next, lo, hi)
  }

  ghost predicate Below(b: Ren, next: nat) {
    Avoids(b, next, next, next)
  }

  ghost function RenSeq(b: Ren, os: seq<Oid>): (r: seq<Oid>)
    ensures |r| == |os|
  {
    seq(|os|, i requires 0 <= i < |os| => RenO(b, os[i]))
  }

  ghost predicate KnownSeq(b: Ren, os: seq<Oid>) {
    forall i | 0 <= i < |os| :: os[i] in b
  }

  ghost predicate Core(b: Ren, s: Store, known: set<Value>, d: Dev, m: Rec2Vid) {
    Stores(b, s, d.store) && Below(b, d.next) && Agrees(m, known, b)
  }

  ghost predicate Sim(b: Ren, r: Recorded, st: State) {
    && Core(b, r.store, r.known, st.dev, st.rec2vid)
    && KnownSeq(b, r.pend) && st.oids == RenSeq(b, r.pend)
    && st.status == r.status && !r.refused
  }

  // ---------- rewriting is renaming ----------

  lemma {:induction false} LookupIsRenaming(m: Rec2Vid, known: set<Value>, b: Ren, v: Value)
    requires Bij(b) && Agrees(m, known, b) && !v.Dict?
    ensures HasOid(v) && v in known ==> KnownV(b, v) && m[v] == RenV(b, v)
    ensures !HasOid(v) || v == Ref(Null) ==> KnownV(b, v) && RenV(b, v) == v
  {
    assert Names(m, b, v);
  }

  lemma {:induction false} KnownFlatSnoc(b: Ren, flat: seq<Value>, n: nat)
    requires |flat| == n + 1
    ensures KnownFlat(b, flat) <==> KnownFlat(b, flat[..n]) && KnownV(b, flat[n])
    ensures RenFlat(b, flat) == RenFlat(b, flat[..n]) + [RenV(b, flat[n])]
  {
    if KnownFlat(b, flat[..n]) && KnownV(b, flat[n]) {
      forall i | 0 <= i < |flat| ensures KnownV(b, flat[i]) {
        if i < n { assert flat[..n][i] == flat[i]; }
      }
    }
  }

  lemma {:induction false} RewriteAttrsIsRenaming(m: Rec2Vid, known: set<Value>, b: Ren, attrs: seq<Value>, exemptNull: bool)
    requires Bij(b) && Agrees(m, known, b) && Plain(attrs)
    ensures RewriteAttrs(m, attrs, exemptNull).Some? <==> AttrsResolvable(known, attrs, exemptNull)
    ensures AttrsResolvable(known, attrs, exemptNull) ==>
              KnownFlat(b, attrs) && RewriteAttrs(m, attrs, exemptNull) == Some(RenFlat(b, attrs))
  {
    if |attrs| > 0 {
      var n := |attrs| - 1;
      RewriteAttrsIsRenaming(m, known, b, attrs[..n], exemptNull);
      KnownFlatSnoc(b, attrs, n);
      if n % 2 == 1 { LookupIsRenaming(m, known, b, attrs[n]); }
    }
  }

  lemma {:induction false} MeantIsRenaming(m: Rec2Vid, known: set<Value>, b: Ren, f: Fields)
    requires Bij(b) && Agrees(m, known, b)
    ensures FieldsResolvable(known, f) <==> forall v | v in OidTokens(f) :: v in known
    ensures FieldsResolvable(known, f) ==> KnownF(b, f) && Meant(m, f) == RenF(b, f)
  {
    match f
    case NoFields =>
    case Field(_, v, rest) =>
      MeantIsRenaming(m, known, b, rest);
      if v.Dict? { MeantIsRenaming(m, known, b, v.fields); } else { LookupIsRenaming(m, known, b, v); }
      assert HasOid(v) && !v.Dict? ==> v in OidTokens(f);
  }

  lemma AgreesIsFlat(m: Rec2Vid, known: set<Value>, b: Ren)
    requires Agrees(m, known, b)
    ensures Flat(m)
  {
    forall v | v in m && !v.Dict? ensures !m[v].Dict? { assert Names(m, b, v); }
  }

  /** The exact condition for an entry key to come out renamed; an unknown OID raises. */
  lemma {:induction false} RewriteFieldsIsRenaming(m: Rec2Vid, known: set<Value>, b: Ren, f: Fields)
    requires Bij(b) && Agrees(m, known, b)
    ensures RewriteFields(m, f).Some? <==> FieldsResolvable(known, f)
    ensures FieldsResolvable(known, f) ==> KnownF(b, f) && (RewriteFields(m, f) == Some(RenF(b, f)) <==> CleanKey(m, f))
  {
    AgreesIsFlat(m, known, b);
    ExactlyCleanKeys(m, f);
    MeantIsRenaming(m, known, b, f);
  }

  /** The key of a record becomes the renamed key exactly when its OIDs are known and it is clean. */
  lemma RewriteKeyIsRenaming(m: Rec2Vid, known: set<Value>, b: Ren, key: Handle)
    requires Bij(b) && Agrees(m, known, b)
    ensures RewriteKey(m, key).Some? <==> KeyResolvable(known, key)
    ensures KeyResolvable(known, key) ==> KnownH(b, key) && (RewriteKey(m, key) == Some(RenH(b, key)) <==> CleanH(m, key))
  {
    if key.EntryH? { RewriteFieldsIsRenaming(m, known, b, key.key); } else { assert Names(m, b, Ref(key.oid)); }
  }

  lemma RewriteChangeIsRenaming(m: Rec2Vid, known: set<Value>, b: Ren, c: Change, exemptNull: bool)
    requires Bij(b) && Agrees(m, known, b) && Plain(c.attr) && |c.attr| == 2
    ensures RewriteChange(m, c, exemptNull).Some? <==> ChangeResolvable(known, c, exemptNull)
    ensures RewriteChange(m, c, exemptNull).Some? && CleanH(m, c.key) ==>
      && KnownH(b, c.key) && KnownFlat(b, c.attr)
      && RewriteChange(m, c, exemptNull) == Some(Change(RenH(b, c.key), RenFlat(b, c.attr)))
  {
    assert c.attr[..2] == c.attr;
    RewriteAttrsIsRenaming(m, known, b, c.attr, exemptNull);
    RewriteKeyIsRenaming(m, known, b, c.key);
    assert RenFlat(b, c.attr) + c.attr[2..] == RenFlat(b, c.attr);
  }

  lemma RenSeqConcat(b: Ren, os: seq<Oid>, ps: seq<Oid>)
    ensures RenSeq(b, os + ps) == RenSeq(b, os) + RenSeq(b, ps)
    ensures KnownSeq(b, os) && KnownSeq(b, ps) ==> KnownSeq(b, os + ps)
  {
  }

  lemma {:induction false} OidsOfValueRen(b: Ren, v: Value)
    requires KnownV(b, v)
    ensures KnownSeq(b, OidsOfValue(v)) && OidsOfValue(RenV(b, v)) == RenSeq(b, OidsOfValue(v))
  {
  }

  lemma {:induction false} OidsOfSnoc(flat: seq<Value>, v: Value)
    ensures OidsOf(flat + [v]) == OidsOf(flat) + if |flat| % 2 == 1 then OidsOfValue(v) else []
  {
    assert (flat + [v])[..|flat|] == flat;
  }

  lemma {:induction false} OidsOfRen(b: Ren, attrs: seq<Value>)
    requires KnownFlat(b, attrs)
    ensures KnownSeq(b, OidsOf(attrs)) && OidsOf(RenFlat(b, attrs)) == RenSeq(b, OidsOf(attrs))
  {
    if |attrs| > 0 {
      var n := |attrs| - 1;
      KnownFlatSnoc(b, attrs, n);
      OidsOfRen(b, attrs[..n]);
      OidsOfSnoc(RenFlat(b, attrs[..n]), RenV(b, attrs[n]));
      OidsOfValueRen(b, attrs[n]);
      RenSeqConcat(b, OidsOf(attrs[..n]), OidsOfValue(attrs[n]));
    }
  }

  lemma {:induction false} ReadKnown(b: Ren, a: Attrs, req: seq<Value>)
    requires KnownA(b, a)
    ensures KnownFlat(b, ReadAll(a, req).1)
    decreases |req|
  {
    if |req| >= 2 { ReadKnown(b, a, req[..|req| - 2]); }
  }

  // ---------- single steps on the stores ----------

  lemma SameOids(b: Ren, s: Store, t: Store, s': Store, t': Store)
    requires Stores(b, s, t) && Renamed(b, s', t')
    requires forall o :: OidH(o) in s <==> OidH(o) in s'
    ensures Stores(b, s', t')
  {
    forall o ensures Tracked(b, s', o) { assert Tracked(b, s, o); }
  }

  lemma {:induction false} CreateEntryStores(b: Ren, s: Store, t: Store, ty: ObjType, f: Fields, attrs: seq<Value>)
    requires Stores(b, s, t) && KnownF(b, f) && KnownFlat(b, attrs)
    ensures CreateEntry(t, ty, RenF(b, f), RenFlat(b, attrs)).0 == CreateEntry(s, ty, f, attrs).0
    ensures Stores(b, CreateEntry(s, ty, f, attrs).1, CreateEntry(t, ty, RenF(b, f), RenFlat(b, attrs)).1)
  {
    CreateEntryCommutes(b, s, t, ty, f, attrs);
    SameOids(b, s, t, CreateEntry(s, ty, f, attrs).1, CreateEntry(t, ty, RenF(b, f), RenFlat(b, attrs)).1);
  }

  lemma SetStores(b: Ren, s: Store, t: Store, key: Handle, attr: seq<Value>)
    requires Stores(b, s, t) && KnownH(b, key) && KnownFlat(b, attr)
    ensures SaiStore.SetAttr(t, RenH(b, key), RenFlat(b, attr)).0 == SaiStore.SetAttr(s, key, attr).0
    ensures Stores(b, SaiStore.SetAttr(s, key, attr).1, SaiStore.SetAttr(t, RenH(b, key), RenFlat(b, attr)).1)
  {
    SetCommutes(b, s, t, key, attr);
    SameOids(b, s, t, SaiStore.SetAttr(s, key, attr).1, SaiStore.SetAttr(t, RenH(b, key), RenFlat(b, attr)).1);
  }

  lemma RemoveEntryStores(b: Ren, s: Store, t: Store, key: Handle)
    requires Stores(b, s, t) && key.EntryH? && key in s
    ensures Stores(b, s - {key}, t - {RenH(b, key)})
  {
    RenamedRemove(b, s, t, key);
    SameOids(b, s, t, s - {key}, t - {RenH(b, key)});
  }

  /** What does not mention `o` is known to the smaller map as well. */
  lemma {:induction false} UnmentionedV(b: Ren, v: Value, o: Oid)
    requires KnownV(b, v) && !MentionsV(v, o)
    ensures KnownV(b - {o}, v)
  {
    match v
    case Dict(f) => UnmentionedF(b, f, o);
    case RefList(_) =>
    case Ref(_) =>
    case Txt(_) =>
    case Sym(_) =>
  }

  lemma {:induction false} UnmentionedF(b: Ren, f: Fields, o: Oid)
    requires KnownF(b, f) && !MentionsF(f, o)
    ensures KnownF(b - {o}, f)
  {
    match f
    case NoFields =>
    case Field(_, v, rest) =>
      UnmentionedV(b, v, o);
      UnmentionedF(b, rest, o);
  }

  lemma UnmentionedH(b: Ren, s: Store, h: Handle, o: Oid)
    requires h in s && KnownH(b, h) && KnownA(b, s[h]) && !Refers(s, h, o) && h != OidH(o)
    ensures KnownH(b - {o}, h) && KnownA(b - {o}, s[h])
  {
    if h.EntryH? { UnmentionedF(b, h.key, o); }
    forall k | k in s[h] ensures KnownV(b - {o}, s[h][k]) { UnmentionedV(b, s[h][k], o); }
  }

  lemma ShrinkRenamed(b: Ren, s: Store, t: Store, o: Oid)
    requires Renamed(b, s, t) && OidH(o) !in s && forall h | h in s :: !Refers(s, h, o)
    ensures Renamed(b - {o}, s, t)
  {
    var c := b - {o};
    assert Grows(c, b);
    forall h ensures Carried(c, s, t, h) && (h in s ==> RenH(c, h) == RenH(b, h)) {
      assert Carried(b, s, t, h);
      if h in s {
        UnmentionedH(b, s, h, o);
        if h.EntryH? { RenExtendsF(c, b, h.key); }
        RenExtendsA(c, b, s[h]);
      }
    }
    forall g ensures Covered(c, s, t, g) {
      assert Covered(b, s, t, g);
      if g in t {
        var h :| h in s && g == RenH(b, h);
        assert h in s && g == RenH(c, h);
      }
    }
  }

  lemma RemoveObjectStores(b: Ren, s: Store, t: Store, o: Oid)
    requires Stores(b, s, t) && OidH(o) in s && !InUse(s, o)
    ensures o in b && Stores(b - {o}, s - {OidH(o)}, t - {OidH(b[o])})
  {
    assert Tracked(b, s, o);
    var s' := s - {OidH(o)};
    var c := b - {o};
    forall q ensures Tracked(c, s', q) { assert Tracked(b, s, q); }
    RenamedRemove(b, s, t, OidH(o));
    forall h | h in s' ensures !Refers(s', h, o) { assert !Refers(s, h, o); }
    ShrinkRenamed(b, s', t - {OidH(b[o])}, o);
    forall p, q ensures Apart(c, p, q) { assert Apart(b, p, q); }
  }

  // ---------- creating an object with its companions ----------

  lemma {:induction false} CreatedOid(s: Store, ids: seq<Oid>, c: Companions, attrs: seq<Value>, n: nat, o: Oid)
    requires |ids| == 1 + |c.extras| && n <= |c.extras|
    ensures OidH(o) in NewObject(s, ids, c, attrs, n) <==> OidH(o) in s || exists i :: 0 <= i <= n && ids[i] == o
  {
    if n == 0 { assert ids[0] == o || ids[0] != o; } else { CreatedOid(s, ids, c, attrs, n - 1, o); }
  }

  lemma IdsForSameTypes(p: Profile, ids: seq<Oid>, ids': seq<Oid>)
    requires IdsFor(p, ids) && IdsFor(p, ids') && ids[0].ty == ids'[0].ty
    ensures SameTypes(ids, ids')
  {
  }

  lemma FreshKeys(b: Ren, s: Store, t: Store, ids: seq<Oid>)
    requires Stores(b, s, t) && FreshIn(s, ids)
    ensures Fresh(b.Keys, ids)
  {
    forall i | 0 <= i < |ids| ensures ids[i] !in b { assert Tracked(b, s, ids[i]); }
  }

  lemma CreatedStores(p: Profile, b: Ren, e: Ren, s: Store, t: Store, ids: seq<Oid>, t': Store, attrs: seq<Value>)
    requires Stores(b, s, t) && IdsFor(p, ids) && Bij(e) && Renamed(e, WithObject(p, s, ids, attrs), t')
    requires forall o :: o in e <==> o in b || o in ids
    ensures Stores(e, WithObject(p, s, ids, attrs), t')
  {
    var c := CompanionsOf(p, ids[0].ty);
    forall o ensures OidH(o) in WithObject(p, s, ids, attrs) <==> OidH(o) in s || o in ids {
      CreatedOid(s, ids, c, attrs, |c.extras|, o);
    }
    forall o ensures Tracked(e, WithObject(p, s, ids, attrs), o) { assert Tracked(b, s, o); }
  }

  /** The recorded switch and the live switch create the same object under different names. */
  lemma {:induction false} CreateSimulates(p: Profile, b: Ren, s: Store, t: Store, ids: seq<Oid>, ids': seq<Oid>, attrs: seq<Value>)
    requires Stores(b, s, t) && ValidIds(p, s, ids) && KnownFlat(b, attrs)
    requires IdsFor(p, ids') && Fresh(b.Values, ids') && ids[0].ty == ids'[0].ty
    ensures |ids| == |ids'|
    ensures CreateStatus(t, OidH(ids'[0]), RenFlat(b, attrs)) == CreateStatus(s, OidH(ids[0]), attrs)
    ensures CreateStatus(s, OidH(ids[0]), attrs) == Success ==>
              Stores(Extend(b, ids, ids'), WithObject(p, s, ids, attrs), WithObject(p, t, ids', RenFlat(b, attrs)))
  {
    IdsForSameTypes(p, ids, ids');
    FreshKeys(b, s, t, ids);
    var e := Extend(b, ids, ids');
    ExtendIsBij(b, ids, ids');
    ExtendLookup(b, ids, ids');
    RenamedExtends(b, e, s, t);
    RenExtendsFlat(b, e, attrs);
    CreateStatusCommutes(e, s, t, OidH(ids[0]), attrs);
    if CreateStatus(s, OidH(ids[0]), attrs) == Success {
      var c := CompanionsOf(p, ids[0].ty);
      NewObjectCommutes(e, s, t, ids, ids', c, attrs, |c.extras|);
      CreatedStores(p, b, e, s, t, ids, WithObject(p, t, ids', RenFlat(b, attrs)), attrs);
    }
  }
}
