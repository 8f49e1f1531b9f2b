/** What happens to a key that is not clean: the replay goes on, but it is no simulation any more. */
module ReplayExact {
  import opened Wrappers
  import opened SaiStore
  import opened Renaming
  import opened ReplaySpec
  import opened ReplayKeys
  import opened ReplaySim
  import opened ReplayTheorem
  import opened ReplayBulk

  /** The two maps read a key in the same way if they agree on its OIDs. */
  lemma {:induction false} SameOnKey(b: Ren, c: Ren, f: Fields)
    requires forall v | v in OidTokens(f) :: v.Ref? && RenO(c, v.oid) == RenO(b, v.oid)
    ensures RenF(c, f) == RenF(b, f)
  {
    match f
    case NoFields =>
    case Field(_, v, rest) =>
      assert forall w | w in OidTokens(rest) :: w in OidTokens(f);
      SameOnKey(b, c, rest);
      if v.Dict? {
        assert forall w | w in OidTokens(v.fields) :: w in OidTokens(f);
        SameOnKey(b, c, v.fields);
      } else if HasOid(v) {
        assert v in OidTokens(f);
      } else if v.RefList? {
        assert RenV(b, v).oids == RenV(c, v).oids;
      }
  }

  /** Whatever renaming fits the names learned, it takes a key of known OIDs to the same key. */
  lemma {:induction false} PinnedKey(b: Ren, c: Ren, m: Rec2Vid, n: Rec2Vid, known: set<Value>, known': set<Value>, f: Fields)
    requires Agrees(m, known, b) && Agrees(n, known', c) && FieldsResolvable(known, f)
    requires forall v | v in m && !v.Dict? :: v in n && n[v] == m[v]
    ensures RenF(c, f) == RenF(b, f)
  {
    ResolvableTokens(known, f);
    TokensOfKey(f);
    forall v | v in OidTokens(f) ensures v.Ref? && RenO(c, v.oid) == RenO(b, v.oid) { assert Names(m, b, v) && Names(n, c, v); }
    SameOnKey(b, c, f);
  }

  /**
    A create record of an entry that the recorded switch accepted: the replay is still a
    simulation, under any renaming, exactly when the key is clean.
   */
  lemma EntryCreateExactly(p: Profile, b: Ren, r: Recorded, st: State, ty: ObjType, f: Fields, attrs: seq<Value>)
    requires Sim(b, r, st) && Plain(attrs) && Resolvable(r.known, Create(EntryH(ty, f), attrs))
    requires CreateEntry(r.store, ty, f, attrs).0 == Success
    ensures CreateStep(p, st, EntryH(ty, f), attrs).Some?
    ensures var r', st' := RecCreateEntry(r, ty, f, attrs), CreateStep(p, st, EntryH(ty, f), attrs).value;
      (exists c :: Sim(c, r', st')) <==> CleanKey(st.rec2vid, f)
  {
    CreateEntrySim(p, b, r, st, ty, f, attrs);
    if !CleanKey(st.rec2vid, f) {
      forall c | Sim(c, RecCreateEntry(r, ty, f, attrs), CreateStep(p, st, EntryH(ty, f), attrs).value) ensures false {
        UncleanCreate(p, b, c, r, st, ty, f, attrs);
      }
    }
  }

  lemma UncleanCreate(p: Profile, b: Ren, c: Ren, r: Recorded, st: State, ty: ObjType, f: Fields, attrs: seq<Value>)
    requires Sim(b, r, st) && Plain(attrs) && Resolvable(r.known, Create(EntryH(ty, f), attrs))
    requires CreateEntry(r.store, ty, f, attrs).0 == Success && CreateStep(p, st, EntryH(ty, f), attrs).Some?
    requires Sim(c, RecCreateEntry(r, ty, f, attrs), CreateStep(p, st, EntryH(ty, f), attrs).value)
    ensures CleanKey(st.rec2vid, f)
  {
    var h := EntryH(ty, f);
    var r', st' := RecCreateEntry(r, ty, f, attrs), CreateStep(p, st, h, attrs).value;
    RewriteFieldsIsRenaming(st.rec2vid, r.known, b, f);
    EntryNamesStay(p, st, ty, f, attrs);
    PinnedKey(b, c, st.rec2vid, st'.rec2vid, r.known, r'.known, f);
    assert Carried(c, r'.store, st'.dev.store, h);
    RenamedIn(b, r.store, st.dev.store, h);
  }

  /** An entry create adds at most the rewritten key to the store, and renames no OID. */
  lemma EntryNamesStay(p: Profile, st: State, ty: ObjType, f: Fields, attrs: seq<Value>)
    requires CreateStep(p, st, EntryH(ty, f), attrs).Some?
    ensures var st' := CreateStep(p, st, EntryH(ty, f), attrs).value;
      && (forall v | v in st.rec2vid && !v.Dict? :: v in st'.rec2vid && st'.rec2vid[v] == st.rec2vid[v])
      && RewriteFields(st.rec2vid, f).Some?
      && forall g | g in st'.dev.store && g !in st.dev.store :: g == EntryH(ty, RewriteFields(st.rec2vid, f).value)
  {
  }

  /**
    A remove record of an entry that the recorded switch accepted: the replay goes on as a
    simulation, under any renaming, exactly when the key is clean.
   */
  lemma {:induction false} EntryRemoveExactly(b: Ren, r: Recorded, st: State, ty: ObjType, f: Fields)
    requires Sim(b, r, st) && r.pend == [] && FieldsResolvable(r.known, f) && RemoveObj(r.store, EntryH(ty, f)).0 == Success
    ensures var r', st' := r.(store := r.store - {EntryH(ty, f)}), RemoveStep(st, EntryH(ty, f));
      (st'.Some? && exists c :: Sim(c, r', st'.value)) <==> CleanKey(st.rec2vid, f)
  {
    var h := EntryH(ty, f);
    var c0 := RemoveSim(b, r, st, h);
    assert ForgetOne(r.known, h) == r.known;
    if RemoveStep(st, h).Some? && !CleanKey(st.rec2vid, f) {
      forall c | Sim(c, r.(store := r.store - {h}), RemoveStep(st, h).value) ensures false { UncleanRemove(b, c, r, st, ty, f); }
    }
  }

  lemma {:induction false} UncleanRemove(b: Ren, c: Ren, r: Recorded, st: State, ty: ObjType, f: Fields)
    requires Sim(b, r, st) && FieldsResolvable(r.known, f) && EntryH(ty, f) in r.store && RemoveStep(st, EntryH(ty, f)).Some?
    requires Sim(c, r.(store := r.store - {EntryH(ty, f)}), RemoveStep(st, EntryH(ty, f)).value)
    ensures CleanKey(st.rec2vid, f)
  {
    var h := EntryH(ty, f);
    var st' := RemoveStep(st, h).value;
    RewriteFieldsIsRenaming(st.rec2vid, r.known, b, f);
    PinnedKey(b, c, st.rec2vid, st'.rec2vid, r.known, r.known, f);
    PinnedKnown(b, c, st.rec2vid, st'.rec2vid, r.known, f);
    RenamedIn(b, r.store, st.dev.store, h);
    RenamedIn(c, r.store - {h}, st'.dev.store, h);
  }

  lemma {:induction false} PinnedKnown(b: Ren, c: Ren, m: Rec2Vid, n: Rec2Vid, known: set<Value>, f: Fields)
    requires Bij(c) && Agrees(m, known, b) && Agrees(n, known, c) && FieldsResolvable(known, f)
    ensures KnownF(c, f)
  {
    MeantIsRenaming(n, known, c, f);
  }

  // ---------- a recording whose replay goes wrong ----------

  // The type of the entry is made up for the example: the keys that the repository itself builds
  // name the switch and at most one more object, and keys with at most one OID of each type are
  // always clean.

  const VLAN := "SAI_OBJECT_TYPE_VLAN"
  const PAIR := "SAI_OBJECT_TYPE_PAIR_ENTRY"
  const NO_COMPANIONS: Profile := map[]

  function TwoVlans(a: nat, b: nat): Fields {
    Field("a", Ref(Vid(VLAN, a)), Field("b", Ref(Vid(VLAN, b)), NoFields))
  }

  function NewVlan(i: nat): Record {
    Create(OidH(Vid(VLAN, i)), [])
  }

  function NewPair(a: nat, b: nat): Record {
    Create(EntryH(PAIR, TwoVlans(a, b)), [])
  }

  function WithVlan(st: State, i: nat): State {
    State(Dev(st.dev.store[OidH(Vid(VLAN, st.dev.next)) := map[]], st.dev.next + 1),
          st.rec2vid[Ref(Vid(VLAN, i)) := Ref(Vid(VLAN, st.dev.next))], st.oids, Some(Success))
  }

  lemma VlanSteps(r: Recorded, st: State, i: nat)
    requires OidH(Vid(VLAN, i)) !in r.store && OidH(Vid(VLAN, st.dev.next)) !in st.dev.store
    ensures RecStep(NO_COMPANIONS, r, NewVlan(i), [[]]) == Some(RecNamed(r, Vid(VLAN, i), r.store[OidH(Vid(VLAN, i)) := map[]]))
    ensures Step(NO_COMPANIONS, st, NewVlan(i)) == Some(WithVlan(st, i))
  {
    Alone(r.store, Vid(VLAN, i));
    Alone(st.dev.store, Vid(VLAN, st.dev.next));
    assert [Vid(VLAN, i)] + [] == [Vid(VLAN, i)];
    assert ExtraIds([], st.dev.next + 1) == [] && [Vid(VLAN, st.dev.next)] + [] == [Vid(VLAN, st.dev.next)];
  }

  lemma Alone(s: Store, o: Oid)
    requires o.Vid?
    ensures WithObject(NO_COMPANIONS, s, [o], []) == s[OidH(o) := map[]]
  {
    assert AttrMap([]) + FillAll([o], map[]) == map[];
  }

  lemma PairAccepted(s: Store, a: nat, b: nat)
    requires OidH(Vid(VLAN, a)) in s && OidH(Vid(VLAN, b)) in s && EntryH(PAIR, TwoVlans(a, b)) !in s
    ensures CreateEntry(s, PAIR, TwoVlans(a, b), []) == (Success, s[EntryH(PAIR, TwoVlans(a, b)) := AttrMap([])])
  {
    assert LiveF(s, NoFields);
    assert LiveF(s, Field("b", Ref(Vid(VLAN, b)), NoFields));
    assert LiveF(s, TwoVlans(a, b)) && LiveFlat(s, []) && WellFormedAttrs([]);
  }

  lemma PairSteps(st: State)
    requires st.rec2vid == map[Ref(Vid(VLAN, 1)) := Ref(Vid(VLAN, 2)), Ref(Vid(VLAN, 2)) := Ref(Vid(VLAN, 3))]
    requires OidH(Vid(VLAN, 3)) in st.dev.store && EntryH(PAIR, TwoVlans(3, 3)) !in st.dev.store
    ensures var st' := Step(NO_COMPANIONS, st, NewPair(1, 2));
      st'.Some? && EntryH(PAIR, TwoVlans(3, 3)) in st'.value.dev.store
    ensures !CleanKey(st.rec2vid, TwoVlans(1, 2))
  {
    var v, w := Ref(Vid(VLAN, 1)), Ref(Vid(VLAN, 2));
    var m, f := st.rec2vid, TwoVlans(1, 2);
    assert OidTokens(f) == [v, w];
    assert [v, w][..1] == [v] && [v][..0] == [];
    assert ReplaceEach(m, f, [v]) == Some(TwoVlans(2, 2));
    assert ReplaceEach(m, f, [v, w]) == Some(TwoVlans(3, 3));
    assert Chained(m, OidTokens(f), 0, 1);
    PairAccepted(st.dev.store, 3, 3);
  }

  /**
    The recorded switch numbered two objects 1 and 2 and then made an entry with the key {1, 2}.
    The live switch numbers the objects 2 and 3.  The code turns 1 into 2 and then both into 3,
    and makes an entry with the key {3, 3}: nothing is raised, and the configuration is another one.
   */
  lemma ChainedReplayGoesWrong()
    ensures var recs, hidden := [NewVlan(1), NewVlan(2)] + [NewPair(1, 2)], TwoHidden() + [[]];
            var r, st := RecRun(NO_COMPANIONS, NOTHING_RECORDED, recs, hidden), Run(NO_COMPANIONS, Cleared(2), recs);
      && r.Some? && st.Some? && AllReplayable(NO_COMPANIONS, NOTHING_RECORDED, recs, hidden)
      && EntryH(PAIR, TwoVlans(3, 3)) in st.value.dev.store
      && forall c :: !Sim(c, r.value, st.value)
  {
    var b, r, st := TwoMade();
    PairLast(b, r, st, [NewVlan(1), NewVlan(2)], TwoHidden());
  }

  /** The two creates have no companions. */
  ghost function TwoHidden(): (r: seq<seq<seq<Oid>>>)
    ensures |r| == 2
  {
    [[[]], [[]]]
  }

  lemma {:induction false} PairLast(b: Ren, r: Recorded, st: State, recs: seq<Record>, hids: seq<seq<seq<Oid>>>)
    requires |recs| == |hids| && RecRun(NO_COMPANIONS, NOTHING_RECORDED, recs, hids) == Some(r) && Run(NO_COMPANIONS, Cleared(2), recs) == Some(st)
    requires AllReplayable(NO_COMPANIONS, NOTHING_RECORDED, recs, hids) && Sim(b, r, st)
    requires Ref(Vid(VLAN, 1)) in r.known && Ref(Vid(VLAN, 2)) in r.known
    requires OidH(Vid(VLAN, 1)) in r.store && OidH(Vid(VLAN, 2)) in r.store && EntryH(PAIR, TwoVlans(1, 2)) !in r.store
    requires st.rec2vid == map[Ref(Vid(VLAN, 1)) := Ref(Vid(VLAN, 2)), Ref(Vid(VLAN, 2)) := Ref(Vid(VLAN, 3))]
    requires OidH(Vid(VLAN, 3)) in st.dev.store && EntryH(PAIR, TwoVlans(3, 3)) !in st.dev.store
    ensures var r', st' := RecRun(NO_COMPANIONS, NOTHING_RECORDED, recs + [NewPair(1, 2)], hids + [[]]),
                           Run(NO_COMPANIONS, Cleared(2), recs + [NewPair(1, 2)]);
      && r'.Some? && st'.Some? && AllReplayable(NO_COMPANIONS, NOTHING_RECORDED, recs + [NewPair(1, 2)], hids + [[]])
      && EntryH(PAIR, TwoVlans(3, 3)) in st'.value.dev.store
      && forall c :: !Sim(c, r'.value, st'.value)
  {
    PairSteps(st);
    PairGoesWrong(b, r, st);
    RecRunSnoc(NO_COMPANIONS, NOTHING_RECORDED, recs, hids, NewPair(1, 2), []);
    RunSnoc(NO_COMPANIONS, Cleared(2), recs, NewPair(1, 2));
  }

  lemma OneMade() returns (b: Ren)
    ensures var r, st := RecNamed(NOTHING_RECORDED, Vid(VLAN, 1), map[OidH(Vid(VLAN, 1)) := map[]]), WithVlan(Cleared(2), 1);
      && RecRun(NO_COMPANIONS, NOTHING_RECORDED, [NewVlan(1)], [[[]]]) == Some(r)
      && Run(NO_COMPANIONS, Cleared(2), [NewVlan(1)]) == Some(st)
      && AllReplayable(NO_COMPANIONS, NOTHING_RECORDED, [NewVlan(1)], [[[]]]) && Sim(b, r, st)
  {
    InitialSim(2);
    var none: seq<seq<seq<Oid>>> := [];
    b := OneVlanMore(NOTHING_RENAMED, NOTHING_RECORDED, Cleared(2), [], none, 1);
    assert [] + [NewVlan(1)] == [NewVlan(1)] && none + [[[]]] == [[[]]];
  }

  lemma TwoMade() returns (b: Ren, r: Recorded, st: State)
    ensures RecRun(NO_COMPANIONS, NOTHING_RECORDED, [NewVlan(1), NewVlan(2)], TwoHidden()) == Some(r)
    ensures Run(NO_COMPANIONS, Cleared(2), [NewVlan(1), NewVlan(2)]) == Some(st) && Sim(b, r, st)
    ensures AllReplayable(NO_COMPANIONS, NOTHING_RECORDED, [NewVlan(1), NewVlan(2)], TwoHidden())
    ensures r.known == {Ref(Vid(VLAN, 1)), Ref(Vid(VLAN, 2))} && r.store == map[OidH(Vid(VLAN, 1)) := map[], OidH(Vid(VLAN, 2)) := map[]]
    ensures st.rec2vid == map[Ref(Vid(VLAN, 1)) := Ref(Vid(VLAN, 2)), Ref(Vid(VLAN, 2)) := Ref(Vid(VLAN, 3))]
    ensures st.dev.store == map[OidH(Vid(VLAN, 2)) := map[], OidH(Vid(VLAN, 3)) := map[]]
  {
    b := OneMade();
    var one: seq<seq<seq<Oid>>> := [[[]]];
    r, st := RecNamed(NOTHING_RECORDED, Vid(VLAN, 1), map[OidH(Vid(VLAN, 1)) := map[]]), WithVlan(Cleared(2), 1);
    b := OneVlanMore(b, r, st, [NewVlan(1)], one, 2);
    r, st := RecNamed(r, Vid(VLAN, 2), r.store[OidH(Vid(VLAN, 2)) := map[]]), WithVlan(st, 2);
    assert [NewVlan(1)] + [NewVlan(2)] == [NewVlan(1), NewVlan(2)] && one + [[[]]] == TwoHidden();
  }

  lemma OneVlanMore(b: Ren, r: Recorded, st: State, recs: seq<Record>, hids: seq<seq<seq<Oid>>>, i: nat) returns (c: Ren)
    requires |recs| == |hids| && RecRun(NO_COMPANIONS, NOTHING_RECORDED, recs, hids) == Some(r) && Run(NO_COMPANIONS, Cleared(2), recs) == Some(st)
    requires AllReplayable(NO_COMPANIONS, NOTHING_RECORDED, recs, hids) && Sim(b, r, st)
    requires OidH(Vid(VLAN, i)) !in r.store && OidH(Vid(VLAN, st.dev.next)) !in st.dev.store
    ensures var r' := RecNamed(r, Vid(VLAN, i), r.store[OidH(Vid(VLAN, i)) := map[]]);
      && RecRun(NO_COMPANIONS, NOTHING_RECORDED, recs + [NewVlan(i)], hids + [[[]]]) == Some(r')
      && Run(NO_COMPANIONS, Cleared(2), recs + [NewVlan(i)]) == Some(WithVlan(st, i))
      && AllReplayable(NO_COMPANIONS, NOTHING_RECORDED, recs + [NewVlan(i)], hids + [[[]]])
      && Sim(c, r', WithVlan(st, i))
  {
    VlanSteps(r, st, i);
    RecRunSnoc(NO_COMPANIONS, NOTHING_RECORDED, recs, hids, NewVlan(i), [[]]);
    RunSnoc(NO_COMPANIONS, Cleared(2), recs, NewVlan(i));
    c := StepSimulates(NO_COMPANIONS, b, r, st, NewVlan(i), [[]]);
  }

  lemma PairGoesWrong(b: Ren, r: Recorded, st: State)
    requires Sim(b, r, st) && Ref(Vid(VLAN, 1)) in r.known && Ref(Vid(VLAN, 2)) in r.known
    requires OidH(Vid(VLAN, 1)) in r.store && OidH(Vid(VLAN, 2)) in r.store && EntryH(PAIR, TwoVlans(1, 2)) !in r.store
    requires !CleanKey(st.rec2vid, TwoVlans(1, 2))
    ensures Replayable(NO_COMPANIONS, r, NewPair(1, 2), []) && RecStep(NO_COMPANIONS, r, NewPair(1, 2), []).Some?
    ensures Step(NO_COMPANIONS, st, NewPair(1, 2)).Some?
    ensures forall c :: !Sim(c, RecStep(NO_COMPANIONS, r, NewPair(1, 2), []).value, Step(NO_COMPANIONS, st, NewPair(1, 2)).value)
  {
    PairAccepted(r.store, 1, 2);
    assert OidTokens(TwoVlans(1, 2)) == [Ref(Vid(VLAN, 1)), Ref(Vid(VLAN, 2))];
    ResolvableTokens(r.known, TwoVlans(1, 2));
    EntryCreateExactly(NO_COMPANIONS, b, r, st, PAIR, TwoVlans(1, 2), []);
  }
}
