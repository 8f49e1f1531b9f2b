/**
  What a replay collects and learns from reads and replies, when an expected failure raises, and
  which records are resolvable, said of the values themselves.
 */
module ReplayMeaning {
  import opened Wrappers
  import opened SaiStore
  import opened StoreMeaning
  import opened Renaming
  import opened ReplaySpec
  import opened ReplayKeys
  import opened ReplaySim
  import opened ReplayTheorem

  // ---------- the OIDs of an attribute list ----------

  /** The value at an odd place is this OID, or a list with it. */
  predicate ShowsAt(attrs: seq<Value>, i: nat, o: Oid)
    requires i < |attrs|
  {
    i % 2 == 1 && (attrs[i] == Ref(o) || (attrs[i].RefList? && o in attrs[i].oids))
  }

  predicate Shows(attrs: seq<Value>, o: Oid) {
    exists i :: 0 <= i < |attrs| && ShowsAt(attrs, i, o)
  }

  /** The OIDs that the i-th element of a list shows, a list of them one by one. */
  predicate ShownBy(v: Value, i: nat, os: seq<Oid>) {
    if i % 2 == 0 then os == []
    else
      match v
      case Ref(o) => |os| == 1 && os[0] == o
      case RefList(l) => |os| == |l| && forall j | 0 <= j < |l| :: os[j] == l[j]
      case _ => os == []
  }

  /** These are the OIDs of the list in order: those of the i-th element are between the i-th cut and the next. */
  predicate InOrder(attrs: seq<Value>, os: seq<Oid>, cuts: seq<nat>) {
    && |cuts| == |attrs| + 1 && cuts[0] == 0 && cuts[|attrs|] == |os|
    && forall i | 0 <= i < |attrs| :: PieceShown(attrs, os, cuts, i)
  }

  predicate PieceShown(attrs: seq<Value>, os: seq<Oid>, cuts: seq<nat>, i: nat)
    requires i < |attrs| && |cuts| == |attrs| + 1
  {
    cuts[i] <= cuts[i + 1] <= |os| && ShownBy(attrs[i], i, os[cuts[i]..cuts[i + 1]])
  }

  lemma PieceStays(attrs: seq<Value>, n: nat, os: seq<Oid>, cuts: seq<nat>, more: seq<Oid>, cut: nat, i: nat)
    requires |attrs| == n + 1 && |cuts| == n + 1 && i < n && PieceShown(attrs[..n], os, cuts, i)
    ensures PieceShown(attrs, os + more, cuts + [cut], i)
  {
    assert attrs[..n][i] == attrs[i];
    assert (os + more)[cuts[i]..cuts[i + 1]] == os[cuts[i]..cuts[i + 1]];
  }

  lemma InOrderSnoc(attrs: seq<Value>, n: nat, os: seq<Oid>, cuts: seq<nat>, more: seq<Oid>)
    requires |attrs| == n + 1 && InOrder(attrs[..n], os, cuts) && ShownBy(attrs[n], n, more)
    ensures InOrder(attrs, os + more, cuts + [|os| + |more|])
  {
    var cut := |os| + |more|;
    forall i | 0 <= i < n ensures PieceShown(attrs, os + more, cuts + [cut], i) { PieceStays(attrs, n, os, cuts, more, cut, i); }
    assert (os + more)[|os|..cut] == more;
  }

  lemma {:induction false} CollectedInOrder(attrs: seq<Value>) returns (cuts: seq<nat>)
    ensures InOrder(attrs, OidsOf(attrs), cuts)
  {
    if |attrs| == 0 {
      cuts := [0];
    } else {
      var n := |attrs| - 1;
      var pre := CollectedInOrder(attrs[..n]);
      var more := if n % 2 == 1 then OidsOfValue(attrs[n]) else [];
      InOrderSnoc(attrs, n, OidsOf(attrs[..n]), pre, more);
      cuts := pre + [|OidsOf(attrs[..n])| + |more|];
    }
  }

  lemma {:induction false} CollectedAreShown(attrs: seq<Value>, o: Oid)
    ensures o in OidsOf(attrs) <==> Shows(attrs, o)
  {
    if |attrs| > 0 {
      var n := |attrs| - 1;
      CollectedAreShown(attrs[..n], o);
      assert Shows(attrs, o) <==> Shows(attrs[..n], o) || ShowsAt(attrs, n, o) by {
        forall i | 0 <= i < n ensures ShowsAt(attrs, i, o) <==> ShowsAt(attrs[..n], i, o) { assert attrs[..n][i] == attrs[i]; }
      }
    }
  }

  // ---------- reads ----------

  /**
    A read that does not raise collects, after what was collected before, the OIDs of the values the live
    object has for the names asked, in order; a refused one collects nothing.
   */
  lemma ReadCollects(st: State, key: Handle, attrs: seq<Value>) returns (live: Handle, reply: seq<Value>, cuts: seq<nat>)
    requires GetStep(st, key, attrs).Some?
    ensures RewriteKey(st.rec2vid, key) == Some(live)
    ensures var st', s := GetStep(st, key, attrs).value, st.dev.store;
      && st'.dev == st.dev && st'.rec2vid == st.rec2vid && st'.status.Some?
      && (st'.status == Some(Success) <==> live in s && AllReadable(s[live], attrs))
      && (st'.status == Some(Success) ==>
           && Answers(s[live], attrs, reply) && st.oids <= st'.oids && InOrder(reply, st'.oids[|st.oids|..], cuts))
      && (st'.status != Some(Success) ==> st'.oids == st.oids)
  {
    live := RewriteKey(st.rec2vid, key).value;
    reply := GetAttrs(st.dev.store, live, attrs).1;
    cuts := CollectedInOrder(reply);
    if live in st.dev.store { ReadExactly(st.dev.store[live], attrs); }
    assert (st.oids + OidsOf(reply))[|st.oids|..] == OidsOf(reply);
  }

  // ---------- replies ----------

  /** The last place of an OID in a list. */
  predicate LastAt(os: seq<Oid>, k: nat) {
    k < |os| && forall j | k < j < |os| :: os[j] != os[k]
  }

  lemma {:induction false} LearnedAt(m: Rec2Vid, recorded: seq<Oid>, live: seq<Oid>, k: nat)
    requires |recorded| == |live| && LastAt(recorded, k)
    ensures Ref(recorded[k]) in Learn(m, recorded, live) && Learn(m, recorded, live)[Ref(recorded[k])] == Ref(live[k])
  {
    var n := |recorded| - 1;
    if k < n {
      assert recorded[n] != recorded[k] && recorded[..n][k] == recorded[k] && live[..n][k] == live[k];
      LearnedAt(m, recorded[..n], live[..n], k);
    }
  }

  lemma {:induction false} OthersNotLearned(m: Rec2Vid, recorded: seq<Oid>, live: seq<Oid>, v: Value)
    requires |recorded| == |live| && !(v.Ref? && v.oid in recorded)
    ensures (v in Learn(m, recorded, live) <==> v in m) && (v in m ==> Learn(m, recorded, live)[v] == m[v])
  {
    if |recorded| > 0 {
      var n := |recorded| - 1;
      assert recorded == recorded[..n] + [recorded[n]];
      OthersNotLearned(m, recorded[..n], live[..n], v);
    }
  }

  ghost predicate SameAt(m: Rec2Vid, m': Rec2Vid, v: Value) {
    (v in m' <==> v in m) && (v in m ==> m'[v] == m[v])
  }

  /**
    A recorded reply raises exactly if it shows another number of OIDs than have been collected;
    otherwise each OID it shows is known by the one collected at its place, nothing else is learned,
    and nothing is left to be matched.
   */
  lemma ReplyTeachesInOrder(st: State, attrs: seq<Value>) returns (recorded: seq<Oid>, cuts: seq<nat>)
    ensures InOrder(attrs, recorded, cuts)
    ensures ReplyStep(st, attrs).Some? <==> |recorded| == |st.oids|
    ensures ReplyStep(st, attrs).Some? ==>
      var st' := ReplyStep(st, attrs).value;
      && st' == st.(rec2vid := st'.rec2vid, oids := [])
      && (forall k | 0 <= k < |recorded| && LastAt(recorded, k) :: Ref(recorded[k]) in st'.rec2vid && st'.rec2vid[Ref(recorded[k])] == Ref(st.oids[k]))
      && (forall v: Value | !(v.Ref? && Shows(attrs, v.oid)) :: SameAt(st.rec2vid, st'.rec2vid, v))
  {
    recorded := OidsOf(attrs);
    cuts := CollectedInOrder(attrs);
    if |recorded| == |st.oids| {
      var m := Learn(st.rec2vid, recorded, st.oids);
      forall k | 0 <= k < |recorded| && LastAt(recorded, k) ensures Ref(recorded[k]) in m && m[Ref(recorded[k])] == Ref(st.oids[k]) {
        LearnedAt(st.rec2vid, recorded, st.oids, k);
      }
      forall v: Value | !(v.Ref? && Shows(attrs, v.oid)) ensures SameAt(st.rec2vid, m, v) {
        if v.Ref? { CollectedAreShown(attrs, v.oid); }
        OthersNotLearned(st.rec2vid, recorded, st.oids, v);
      }
    }
  }

  lemma {:induction false} LearnedAreNamed(known: set<Value>, os: seq<Oid>, v: Value)
    ensures v in Learned(known, os) <==> v in known || (v.Ref? && v.oid in os)
  {
    if |os| > 0 {
      LearnedAreNamed(known, os[..|os| - 1], v);
      assert os == os[..|os| - 1] + [os[|os| - 1]];
    }
  }

  /** In a simulation a reply teaches of every OID it shows, those in lists included, the live counterpart, and of no other. */
  lemma ReplyTeachesCounterparts(p: Profile, b: Ren, r: Recorded, st: State, attrs: seq<Value>, hidden: seq<seq<Oid>>, o: Oid)
    requires Sim(b, r, st) && RecStep(p, r, Reply(attrs), hidden).Some?
    ensures ReplyStep(st, attrs).Some?
    ensures var m := ReplyStep(st, attrs).value.rec2vid;
      && (Ref(o) in m <==> Ref(o) in st.rec2vid || Shows(attrs, o))
      && (Shows(attrs, o) ==> o in b && m[Ref(o)] == Ref(b[o]))
  {
    ReplyTheorem(p, b, r, st, attrs, hidden);
    var r', st' := RecStep(p, r, Reply(attrs), hidden).value, ReplyStep(st, attrs).value;
    LearnedAreNamed(r.known, r.pend, Ref(o));
    CollectedAreShown(attrs, o);
    assert Names(st'.rec2vid, b, Ref(o));
  }

  lemma ReplyTheorem(p: Profile, b: Ren, r: Recorded, st: State, attrs: seq<Value>, hidden: seq<seq<Oid>>)
    requires Sim(b, r, st) && RecStep(p, r, Reply(attrs), hidden).Some?
    ensures ReplyStep(st, attrs).Some? && Sim(b, RecStep(p, r, Reply(attrs), hidden).value, ReplyStep(st, attrs).value)
  {
    ReplySim(p, b, r, st, attrs, hidden);
  }

  // ---------- expected failures ----------

  /** The status is that of the last create or read, since no other record sets it. */
  lemma StatusIsOfCreateOrRead(p: Profile, st: State, rec: Record)
    requires Step(p, st, rec).Some? && !rec.Create? && !rec.Get?
    ensures Step(p, st, rec).value.status == st.status
  {
  }

  /** An expected failure raises exactly if the last create or read neither failed that way nor succeeded, or there was none. */
  lemma ExpectRaisesExactly(p: Profile, st: State, status: Status)
    ensures Step(p, st, Expect(status)).None? <==> st.status.None? || (st.status.value != status && st.status.value != Success)
    ensures Step(p, st, Expect(status)).Some? ==> Step(p, st, Expect(status)).value == st
  {
  }

  predicate EntryAccepted(s: Store, ty: ObjType, key: Fields, attrs: seq<Value>) {
    EntryH(ty, key) !in s && LiveF(s, key) && GoodList(s, attrs)
  }

  /** A create does not raise when it is refused: it leaves the refusal as the status, and nothing is learned. */
  lemma {:induction false} CreateSetsStatus(p: Profile, st: State, key: Handle, attrs: seq<Value>)
    requires CreateStep(p, st, key, attrs).Some?
    ensures RewriteAttrs(st.rec2vid, attrs, false).Some? && (key.EntryH? ==> RewriteFields(st.rec2vid, key.key).Some?)
    ensures var st', live := CreateStep(p, st, key, attrs).value, RewriteAttrs(st.rec2vid, attrs, false).value;
      && st'.status.Some? && st'.oids == st.oids
      && (key.OidH? ==>
           && key.oid.Vid?
           && (st'.status == Some(Success) <==> OidH(Vid(key.oid.ty, st.dev.next)) !in st.dev.store && GoodList(st.dev.store, live)))
      && (key.EntryH? ==>
           (st'.status == Some(Success) <==>
              EntryAccepted(st.dev.store, key.ty, RewriteFields(st.rec2vid, key.key).value, live)))
      && (st'.status != Some(Success) ==> st'.dev.store == st.dev.store && st'.rec2vid == st.rec2vid)
  {
    var live := RewriteAttrs(st.rec2vid, attrs, false).value;
    GoodListIs(st.dev.store, live);
  }

  // ---------- resolvable records ----------

  ghost predicate NamesOid(v: Value) {
    exists o :: MentionsV(v, o)
  }

  ghost predicate NamesOidF(f: Fields) {
    exists o :: MentionsF(f, o)
  }

  lemma {:induction false} HasOidIs(v: Value)
    ensures HasOid(v) <==> NamesOid(v)
  {
    match v
    case Ref(o) => assert MentionsV(v, o);
    case RefList(os) => if |os| > 0 { assert MentionsV(v, os[0]); }
    case Dict(f) =>
      HasOidIsF(f);
      if NamesOidF(f) {
        var o :| MentionsF(f, o);
        assert MentionsV(v, o);
      }
      if NamesOid(v) {
        var o :| MentionsV(v, o);
        assert MentionsF(f, o);
      }
    case Txt(_) =>
    case Sym(_) =>
  }

  lemma {:induction false} HasOidIsF(f: Fields)
    ensures FieldsHaveOid(f) <==> NamesOidF(f)
  {
    match f
    case NoFields =>
    case Field(_, v, rest) =>
      HasOidIs(v);
      HasOidIsF(rest);
      if NamesOid(v) {
        var o :| MentionsV(v, o);
        assert MentionsF(f, o);
      }
      if NamesOidF(rest) {
        var o :| MentionsF(rest, o);
        assert MentionsF(f, o);
      }
      if NamesOidF(f) {
        var o :| MentionsF(f, o);
        assert MentionsV(v, o) || MentionsF(rest, o);
      }
  }

  /** The value is one that the record has to be able to look up. */
  ghost predicate MustBeKnown(known: set<Value>, attrs: seq<Value>, i: nat, exemptNull: bool)
    requires i < |attrs|
  {
    i % 2 == 1 && NamesOid(attrs[i]) && !(exemptNull && attrs[i] == Ref(Null)) ==> attrs[i] in known
  }

  ghost predicate AllKnown(known: set<Value>, attrs: seq<Value>, exemptNull: bool) {
    forall i | 0 <= i < |attrs| :: MustBeKnown(known, attrs, i, exemptNull)
  }

  lemma {:induction false} AttrsResolvableIs(known: set<Value>, attrs: seq<Value>, exemptNull: bool)
    ensures AttrsResolvable(known, attrs, exemptNull) <==> AllKnown(known, attrs, exemptNull)
  {
    if |attrs| > 0 {
      var n := |attrs| - 1;
      AttrsResolvableIs(known, attrs[..n], exemptNull);
      HasOidIs(attrs[n]);
      assert AllKnown(known, attrs, exemptNull) <==> AllKnown(known, attrs[..n], exemptNull) && MustBeKnown(known, attrs, n, exemptNull) by {
        forall i | 0 <= i < n ensures MustBeKnown(known, attrs[..n], i, exemptNull) <==> MustBeKnown(known, attrs, i, exemptNull) {
          assert attrs[..n][i] == attrs[i];
        }
        if AllKnown(known, attrs, exemptNull) {
          forall i | 0 <= i < n ensures MustBeKnown(known, attrs[..n], i, exemptNull) { assert MustBeKnown(known, attrs, i, exemptNull); }
        }
        if AllKnown(known, attrs[..n], exemptNull) && MustBeKnown(known, attrs, n, exemptNull) {
          forall i | 0 <= i < |attrs| ensures MustBeKnown(known, attrs, i, exemptNull) {
            if i < n { assert MustBeKnown(known, attrs[..n], i, exemptNull); }
          }
        }
      }
    }
  }

  /** A value of the key, or of an object within it. */
  predicate Within(f: Fields, x: Value) {
    match f
    case NoFields => false
    case Field(_, v, rest) => v == x || (v.Dict? && Within(v.fields, x)) || Within(rest, x)
  }

  ghost predicate KeyKnown(known: set<Value>, f: Fields) {
    forall x | Within(f, x) && !x.Dict? && NamesOid(x) :: x in known
  }

  lemma {:induction false} FieldsResolvableIs(known: set<Value>, f: Fields)
    ensures FieldsResolvable(known, f) <==> KeyKnown(known, f)
  {
    match f
    case NoFields =>
    case Field(_, v, rest) =>
      FieldsResolvableIs(known, rest);
      if v.Dict? { FieldsResolvableIs(known, v.fields); }
      HasOidIs(v);
      assert forall x | Within(rest, x) :: Within(f, x);
      assert Within(f, v);
      assert v.Dict? ==> forall x | Within(v.fields, x) :: Within(f, x);
  }

  ghost predicate HandleKnown(known: set<Value>, h: Handle) {
    match h
    case OidH(o) => Ref(o) in known
    case EntryH(_, f) => KeyKnown(known, f)
  }

  lemma KeyResolvableIs(known: set<Value>, h: Handle)
    ensures KeyResolvable(known, h) <==> HandleKnown(known, h)
  {
    if h.EntryH? { FieldsResolvableIs(known, h.key); }
  }

  /** What is known once the objects before the i-th are removed. */
  function LeftBefore(known: set<Value>, keys: seq<Handle>, i: nat): set<Value> {
    set v | v in known && !(v.Ref? && OidH(v.oid) in keys[..if i <= |keys| then i else |keys|])
  }

  lemma {:induction false} ForgetIs(known: set<Value>, keys: seq<Handle>)
    ensures Forget(known, keys) == LeftBefore(known, keys, |keys|)
  {
    if |keys| > 0 {
      var n := |keys| - 1;
      ForgetIs(known, keys[..n]);
      assert keys[..|keys|] == keys && keys[..n][..n] == keys[..n] && keys == keys[..n] + [keys[n]];
    } else {
      assert keys[..0] == [];
    }
  }

  /** Every OID of the record has been shown before, in a bulk removal those already removed excepted; only bulk records may name `oid:0x0` freely. */
  ghost predicate ShownBefore(known: set<Value>, rec: Record) {
    match rec
    case Create(key, attrs) => AllKnown(known, attrs, false) && (key.EntryH? ==> KeyKnown(known, key.key))
    case SetOne(key, attr) => AllKnown(known, attr, false) && HandleKnown(known, key)
    case Remove(key) => HandleKnown(known, key)
    case Get(key, _) => HandleKnown(known, key)
    case BulkCreateObjects(_, objs) => |objs| > 0 && forall i | 0 <= i < |objs| :: AllKnown(known, objs[i].attrs, true)
    case BulkCreateEntries(_, entries) =>
      |entries| > 0 && forall i | 0 <= i < |entries| :: AllKnown(known, entries[i].attrs, true) && KeyKnown(known, entries[i].key)
    case BulkSet(changes) => forall i | 0 <= i < |changes| :: AllKnown(known, changes[i].attr, true) && HandleKnown(known, changes[i].key)
    case BulkRemove(keys) => forall i | 0 <= i < |keys| :: HandleKnown(LeftBefore(known, keys, i), keys[i])
    case _ => true
  }

  lemma {:induction false} ObjsResolvableIs(known: set<Value>, objs: seq<NewObj>)
    ensures ObjsResolvable(known, objs) <==> forall i | 0 <= i < |objs| :: AllKnown(known, objs[i].attrs, true)
  {
    if |objs| > 0 {
      var n := |objs| - 1;
      ObjsResolvableIs(known, objs[..n]);
      AttrsResolvableIs(known, objs[n].attrs, true);
      assert forall i | 0 <= i < n :: objs[..n][i] == objs[i];
    }
  }

  lemma {:induction false} EntriesResolvableIs(known: set<Value>, entries: seq<NewEntry>)
    ensures EntriesResolvable(known, entries) <==>
      forall i | 0 <= i < |entries| :: AllKnown(known, entries[i].attrs, true) && KeyKnown(known, entries[i].key)
  {
    if |entries| > 0 {
      var n := |entries| - 1;
      EntriesResolvableIs(known, entries[..n]);
      AttrsResolvableIs(known, entries[n].attrs, true);
      FieldsResolvableIs(known, entries[n].key);
      assert forall i | 0 <= i < n :: entries[..n][i] == entries[i];
    }
  }

  lemma {:induction false} ChangesResolvableIs(known: set<Value>, changes: seq<Change>)
    ensures ChangesResolvable(known, changes) <==>
      forall i | 0 <= i < |changes| :: AllKnown(known, changes[i].attr, true) && HandleKnown(known, changes[i].key)
  {
    if |changes| > 0 {
      var n := |changes| - 1;
      ChangesResolvableIs(known, changes[..n]);
      AttrsResolvableIs(known, changes[n].attr, true);
      KeyResolvableIs(known, changes[n].key);
      assert forall i | 0 <= i < n :: changes[..n][i] == changes[i];
    }
  }

  ghost predicate StillKnown(known: set<Value>, keys: seq<Handle>, i: nat)
    requires i < |keys|
  {
    HandleKnown(LeftBefore(known, keys, i), keys[i])
  }

  lemma {:induction false} KeysResolvableIs(known: set<Value>, keys: seq<Handle>)
    ensures KeysResolvable(known, keys) <==> forall i | 0 <= i < |keys| :: StillKnown(known, keys, i)
  {
    if |keys| > 0 {
      var n := |keys| - 1;
      KeysResolvableIs(known, keys[..n]);
      ForgetIs(known, keys[..n]);
      KeyResolvableIs(Forget(known, keys[..n]), keys[n]);
      assert keys[..n][..n] == keys[..n];
      forall i | 0 <= i < n ensures StillKnown(known, keys[..n], i) <==> StillKnown(known, keys, i) {
        assert keys[..n][..i] == keys[..i] && keys[..n][i] == keys[i];
      }
      assert KeysResolvable(known, keys) <==> KeysResolvable(known, keys[..n]) && StillKnown(known, keys, n);
    }
  }

  /** A record is resolvable exactly if all its OIDs have been shown before. */
  lemma ResolvableIsShownBefore(known: set<Value>, rec: Record)
    ensures Resolvable(known, rec) <==> ShownBefore(known, rec)
  {
    match rec
    case Create(key, attrs) =>
      AttrsResolvableIs(known, attrs, false);
      KeyResolvableIs(known, key);
    case SetOne(key, attr) =>
      AttrsResolvableIs(known, attr, false);
      KeyResolvableIs(known, key);
    case Remove(key) => KeyResolvableIs(known, key);
    case Get(key, _) => KeyResolvableIs(known, key);
    case BulkCreateObjects(_, objs) => ObjsResolvableIs(known, objs);
    case BulkCreateEntries(_, entries) => EntriesResolvableIs(known, entries);
    case BulkSet(changes) => ChangesResolvableIs(known, changes);
    case BulkRemove(keys) =>
      KeysResolvableIs(known, keys);
      assert forall i | 0 <= i < |keys| :: StillKnown(known, keys, i) <==> HandleKnown(LeftBefore(known, keys, i), keys[i]);
    case _ =>
  }
}
