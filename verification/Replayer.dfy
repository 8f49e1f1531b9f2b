/**
  The replay as the code runs it: `rec2vid`, the list of OIDs of the last reply, the last
  status and the live switch are updated record by record, and attribute lists are rewritten
  in place.  Every method is proved to do what its ReplaySpec function says; `ok` is false
  when an exception stops the replay.
 */
module Replayer {
  import opened Wrappers
  import opened SaiStore
  import opened ReplaySpec

  class Replayer {
    const profile: Profile
    var dev: Dev
    var rec2vid: Rec2Vid
    var oids: seq<Oid>
    var status: Option<Status>

    constructor (profile: Profile, dev: Dev)
      ensures this.profile == profile && Snapshot() == State(dev, map[], [], None)
    {
      this.profile, this.dev := profile, dev;
      rec2vid, oids, status := map[], [], None;
    }

    function Snapshot(): State
      reads this
    {
      State(dev, rec2vid, oids, status)
    }

    /** Rewrites the values at the odd places of a list; stops at the first OID without a name. */
    method RewriteInPlace(attrs: array<Value>, exemptNull: bool) returns (ok: bool)
      modifies attrs
      ensures ok <==> RewriteAttrs(rec2vid, old(attrs[..]), exemptNull).Some?
      ensures ok ==> attrs[..] == RewriteAttrs(rec2vid, old(attrs[..]), exemptNull).value
    {
      ghost var was := attrs[..];
      var i := 1;
      ghost var j := 0;
      while i < attrs.Length
        invariant 0 <= j && i == 2 * j + 1 <= attrs.Length + 1
        invariant RewriteAttrs(rec2vid, was[..i - 1], exemptNull) == Some(attrs[..i - 1])
        invariant forall k | i - 1 <= k < attrs.Length :: attrs[k] == was[k]
      {
        ghost var done := attrs[..i - 1];
        RewritePair(rec2vid, was, j, exemptNull);
        if NeedsLookup(attrs[i], i, exemptNull) {
          if attrs[i] !in rec2vid {
            RewriteStops(rec2vid, was, i + 1, exemptNull);
            return false;
          }
          attrs[i] := rec2vid[attrs[i]];
        }
        TwoMore(attrs[..], i, done, was[i - 1], attrs[i]);
        i, j := i + 2, j + 1;
      }
      if i == attrs.Length { RewriteNext(rec2vid, was, i - 1, exemptNull); }
      assert was[..attrs.Length] == was && attrs[..attrs.Length] == attrs[..];
      return true;
    }

    /** A copy of the list, rewritten. */
    method Rewrite(attrs: seq<Value>, exemptNull: bool) returns (r: Option<seq<Value>>)
      ensures r == RewriteAttrs(rec2vid, attrs, exemptNull)
    {
      var a := new Value[|attrs|](i requires 0 <= i < |attrs| => attrs[i]);
      assert a[..] == attrs;
      var ok := RewriteInPlace(a, exemptNull);
      return if ok then Some(a[..]) else None;
    }

    /** The OIDs of an entry key, replaced one after the other; stops at the first one without a name. */
    method UpdateEntryKeyOids(key: Fields) returns (r: Option<Fields>)
      ensures r == RewriteFields(rec2vid, key)
    {
      var oids := OidTokens(key);
      var newKey := key;
      for i := 0 to |oids|
        invariant ReplaceEach(rec2vid, key, oids[..i]) == Some(newKey)
      {
        assert oids[..i + 1][..i] == oids[..i];
        if oids[i] !in rec2vid {
          ReplaceStops(rec2vid, key, oids, i + 1);
          return None;
        }
        newKey := Replaced(newKey, oids[i], rec2vid[oids[i]]);
      }
      assert oids[..|oids|] == oids;
      return Some(newKey);
    }

    /** The key of a call: an entry key with its OIDs replaced, or the live OID; a remove forgets the OID. */
    method UpdateKey(key: Handle, pop: bool) returns (r: Option<Handle>)
      modifies this`rec2vid
      ensures r == RewriteKey(old(rec2vid), key)
      ensures rec2vid == if pop && r.Some? then Pop(old(rec2vid), key) else old(rec2vid)
    {
      match key {
      case EntryH(ty, f) =>
        var f' := UpdateEntryKeyOids(f);
        r := if f'.Some? then Some(EntryH(ty, f'.value)) else None;
      case OidH(o) =>
        var vid := LookupOid(rec2vid, o);
        if vid.None? { return None; }
        r := Some(OidH(vid.value));
        if pop { rec2vid := rec2vid - {Ref(o)}; }
      }
    }

    method ProcessCreate(key: Handle, attrs: seq<Value>) returns (ok: bool)
      modifies this
      ensures ok <==> CreateStep(profile, old(Snapshot()), key, attrs).Some?
      ensures ok ==> Snapshot() == CreateStep(profile, old(Snapshot()), key, attrs).value
    {
      var attrs' := Rewrite(attrs, false);
      if attrs'.None? { return false; }
      match key {
      case OidH(o) =>
        if o.Null? { return false; }
        var (d, st, vid) := DevCreate(profile, dev, o.ty, attrs'.value);
        dev, status := d, Some(st);
        if st == Success { rec2vid := rec2vid[Ref(o) := Ref(vid)]; }
      case EntryH(ty, f) =>
        var f' := UpdateEntryKeyOids(f);
        if f'.None? { return false; }
        var (st, s) := CreateEntry(dev.store, ty, f'.value, attrs'.value);
        dev, status := dev.(store := s), Some(st);
        if st == Success { rec2vid := rec2vid[Dict(f) := Dict(f'.value)]; }
      }
      return true;
    }

    method ProcessSet(key: Handle, attr: seq<Value>) returns (ok: bool)
      modifies this
      ensures ok <==> SetStep(old(Snapshot()), key, attr).Some?
      ensures ok ==> Snapshot() == SetStep(old(Snapshot()), key, attr).value
    {
      if |attr| < 2 { return false; }
      var data := Rewrite(attr[..2], false);
      if data.None? { return false; }
      var key' := UpdateKey(key, false);
      if key'.None? { return false; }
      var (st, s) := SaiStore.SetAttr(dev.store, key'.value, data.value + attr[2..]);
      dev := dev.(store := s);
      return st == Success;
    }

    method ProcessRemove(key: Handle) returns (ok: bool)
      modifies this
      ensures ok <==> RemoveStep(old(Snapshot()), key).Some?
      ensures ok ==> Snapshot() == RemoveStep(old(Snapshot()), key).value
    {
      var key' := UpdateKey(key, true);
      if key'.None? { return false; }
      var (st, s) := RemoveObj(dev.store, key'.value);
      dev := dev.(store := s);
      return st == Success;
    }

    /** Collects the OIDs of a successful read, value by value. */
    method ProcessGet(key: Handle, attrs: seq<Value>) returns (ok: bool)
      modifies this
      ensures ok <==> GetStep(old(Snapshot()), key, attrs).Some?
      ensures ok ==> Snapshot() == GetStep(old(Snapshot()), key, attrs).value
    {
      var key' := UpdateKey(key, false);
      if key'.None? { return false; }
      var (st, reply) := GetAttrs(dev.store, key'.value, attrs);
      status := Some(st);
      if st == Success {
        var found := CollectOids(reply);
        oids := oids + found;
      }
      return true;
    }

    method CollectOids(data: seq<Value>) returns (found: seq<Oid>)
      ensures found == OidsOf(data)
    {
      found := [];
      var i := 1;
      ghost var j := 0;
      while i < |data|
        invariant 0 <= j && i == 2 * j + 1 <= |data| + 1
        invariant found == OidsOf(data[..i - 1])
      {
        OidsOfPair(data, j);
        found := found + OidsOfValue(data[i]);
        i, j := i + 2, j + 1;
      }
      OidsOfRest(data, i - 1);
    }

    method ProcessReply(attrs: seq<Value>) returns (ok: bool)
      modifies this
      ensures ok <==> ReplyStep(old(Snapshot()), attrs).Some?
      ensures ok ==> Snapshot() == ReplyStep(old(Snapshot()), attrs).value
    {
      var recorded := CollectOids(attrs);
      if |oids| != |recorded| { return false; }
      LearnAll(recorded, oids);
      oids := [];
      return true;
    }

    method LearnAll(recorded: seq<Oid>, live: seq<Oid>)
      requires |recorded| == |live|
      modifies this`rec2vid
      ensures rec2vid == Learn(old(rec2vid), recorded, live)
    {
      var i := 0;
      while i < |recorded|
        invariant 0 <= i <= |recorded|
        invariant rec2vid == Learn(old(rec2vid), recorded[..i], live[..i])
      {
        assert recorded[..i + 1][..i] == recorded[..i] && live[..i + 1][..i] == live[..i];
        rec2vid := rec2vid[Ref(recorded[i]) := Ref(live[i])];
        i := i + 1;
      }
      assert recorded[..i] == recorded && live[..i] == live;
    }

    method ProcessExpect(expected: Status) returns (ok: bool)
      ensures ok <==> ExpectStep(Snapshot(), expected).Some?
      ensures ok ==> ExpectStep(Snapshot(), expected) == Some(Snapshot())
    {
      return status == Some(expected) || status == Some(Success);
    }

    method ProcessBulkCreateObjects(ty: ObjType, objs: seq<NewObj>) returns (ok: bool)
      modifies this
      ensures ok <==> BulkCreateObjectsStep(profile, old(Snapshot()), ty, objs).Some?
      ensures ok ==> Snapshot() == BulkCreateObjectsStep(profile, old(Snapshot()), ty, objs).value
    {
      if |objs| == 0 { return false; }
      var bulk: seq<seq<Value>> := [];
      var i := 0;
      while i < |objs|
        invariant 0 <= i <= |objs| && RewriteObjs(rec2vid, objs[..i]) == Some(bulk)
        invariant Snapshot() == old(Snapshot())
      {
        RewriteObjsNext(rec2vid, objs, i);
        var attrs := Rewrite(objs[i].attrs, true);
        if attrs.None? { return false; }
        bulk := bulk + [attrs.value];
        i := i + 1;
      }
      assert objs[..i] == objs;
      var base := dev.next;
      var d := CreateMany(profile, Dev(dev.store, base + |objs|), ty, base, bulk);
      if d.None? { return false; }
      dev := d.value;
      LearnAll(ObjOids(objs), OwnIds(ty, base, |objs|));
      return true;
    }

    method ProcessBulkCreateEntries(ty: ObjType, entries: seq<NewEntry>) returns (ok: bool)
      modifies this
      ensures ok <==> BulkCreateEntriesStep(old(Snapshot()), ty, entries).Some?
      ensures ok ==> Snapshot() == BulkCreateEntriesStep(old(Snapshot()), ty, entries).value
    {
      if |entries| == 0 { return false; }
      var bulk: seq<NewEntry> := [];
      var i := 0;
      while i < |entries|
        invariant 0 <= i <= |entries| && RewriteEntries(rec2vid, entries[..i]) == Some(bulk)
        invariant Snapshot() == old(Snapshot())
      {
        RewriteEntriesNext(rec2vid, entries, i);
        var attrs := Rewrite(entries[i].attrs, true);
        if attrs.None? { return false; }
        var key := UpdateEntryKeyOids(entries[i].key);
        if key.None? { return false; }
        bulk := bulk + [NewEntry(key.value, attrs.value)];
        i := i + 1;
      }
      assert entries[..i] == entries;
      var s := CreateEntries(dev.store, ty, bulk);
      if s.None? { return false; }
      dev := dev.(store := s.value);
      return true;
    }

    method ProcessBulkSet(changes: seq<Change>) returns (ok: bool)
      modifies this
      ensures ok <==> BulkSetStep(old(Snapshot()), changes).Some?
      ensures ok ==> Snapshot() == BulkSetStep(old(Snapshot()), changes).value
    {
      var bulk: seq<Change> := [];
      var i := 0;
      while i < |changes|
        invariant 0 <= i <= |changes| && RewriteChanges(rec2vid, changes[..i]) == Some(bulk)
        invariant Snapshot() == old(Snapshot())
      {
        RewriteChangesNext(rec2vid, changes, i);
        var attr := changes[i].attr;
        if |attr| < 2 { return false; }
        var data := Rewrite(attr[..2], true);
        if data.None? { return false; }
        var key := UpdateKey(changes[i].key, false);
        if key.None? { return false; }
        bulk := bulk + [Change(key.value, data.value + attr[2..])];
        i := i + 1;
      }
      assert changes[..i] == changes;
      var s := SetMany(dev.store, bulk);
      if s.None? { return false; }
      dev := dev.(store := s.value);
      return true;
    }

    method ProcessBulkRemove(keys: seq<Handle>) returns (ok: bool)
      modifies this
      ensures ok <==> BulkRemoveStep(old(Snapshot()), keys).Some?
      ensures ok ==> Snapshot() == BulkRemoveStep(old(Snapshot()), keys).value
    {
      var bulk: seq<Handle> := [];
      var i := 0;
      while i < |keys|
        invariant 0 <= i <= |keys| && PopKeys(old(rec2vid), keys[..i]) == Some((rec2vid, bulk))
        invariant Snapshot() == old(Snapshot()).(rec2vid := rec2vid)
      {
        PopKeysNext(old(rec2vid), keys, i);
        var key := UpdateKey(keys[i], true);
        if key.None? { return false; }
        bulk := bulk + [key.value];
        i := i + 1;
      }
      assert keys[..i] == keys;
      var s := RemoveMany(dev.store, bulk);
      if s.None? { return false; }
      dev := dev.(store := s.value);
      return true;
    }

    method Process(rec: Record) returns (ok: bool)
      modifies this
      ensures ok <==> Step(profile, old(Snapshot()), rec).Some?
      ensures ok ==> Snapshot() == Step(profile, old(Snapshot()), rec).value
    {
      match rec
      case Create(key, attrs) => ok := ProcessCreate(key, attrs);
      case SetOne(key, attr) => ok := ProcessSet(key, attr);
      case Remove(key) => ok := ProcessRemove(key);
      case Get(key, attrs) => ok := ProcessGet(key, attrs);
      case Reply(attrs) => ok := ProcessReply(attrs);
      case Expect(expected) => ok := ProcessExpect(expected);
      case BulkCreateObjects(ty, objs) => ok := ProcessBulkCreateObjects(ty, objs);
      case BulkCreateEntries(ty, entries) => ok := ProcessBulkCreateEntries(ty, entries);
      case BulkSet(changes) => ok := ProcessBulkSet(changes);
      case BulkRemove(keys) => ok := ProcessBulkRemove(keys);
      case Ignored => ok := true;
    }

    /** Clears the switch and the names, then replays the recording up to the first exception. */
    method ApplyRec(recs: seq<Record>) returns (ok: bool)
      modifies this
      ensures var start := State(Dev(map[], old(dev.next)), map[], [], None);
        && (ok <==> Run(profile, start, recs).Some?)
        && (ok ==> Snapshot() == Run(profile, start, recs).value)
    {
      dev, rec2vid, oids, status := dev.(store := map[]), map[], [], None;
      ghost var start := Snapshot();
      var i := 0;
      while i < |recs|
        invariant 0 <= i <= |recs| && Run(profile, start, recs[..i]) == Some(Snapshot())
      {
        RunNext(profile, start, recs, i);
        ok := Process(recs[i]);
        if !ok {
          RunStops(profile, start, recs, i + 1);
          return;
        }
        i := i + 1;
      }
      assert recs[..i] == recs;
      ok := true;
    }
  }

  // ---------- one more element ----------

  lemma {:induction false} RewriteNext(m: Rec2Vid, attrs: seq<Value>, n: nat, exemptNull: bool)
    requires n < |attrs|
    ensures RewriteAttrs(m, attrs[..n + 1], exemptNull) ==
      match RewriteAttrs(m, attrs[..n], exemptNull)
      case None => None
      case Some(pre) =>
        if !NeedsLookup(attrs[n], n, exemptNull) then Some(pre + [attrs[n]])
        else if attrs[n] in m then Some(pre + [m[attrs[n]]]) else None
  {
    assert attrs[..n + 1][..n] == attrs[..n];
  }

  lemma RewritePair(m: Rec2Vid, attrs: seq<Value>, j: nat, exemptNull: bool)
    requires 2 * j + 1 < |attrs|
    ensures var i := 2 * j + 1;
      && (NeedsLookup(attrs[i], i, exemptNull) <==> NeedsLookup(attrs[i], 1, exemptNull))
      && RewriteAttrs(m, attrs[..i + 1], exemptNull) ==
        match RewriteAttrs(m, attrs[..i - 1], exemptNull)
        case None => None
        case Some(pre) =>
          if !NeedsLookup(attrs[i], 1, exemptNull) then Some(pre + [attrs[i - 1], attrs[i]])
          else if attrs[i] in m then Some(pre + [attrs[i - 1], m[attrs[i]]]) else None
  {
    var i := 2 * j + 1;
    RewriteNext(m, attrs, i - 1, exemptNull);
    RewriteNext(m, attrs, i, exemptNull);
    match RewriteAttrs(m, attrs[..i - 1], exemptNull)
    case None =>
    case Some(pre) =>
      assert forall v: Value :: (pre + [attrs[i - 1]]) + [v] == pre + [attrs[i - 1], v];
  }

  lemma TwoMore(s: seq<Value>, i: nat, done: seq<Value>, x: Value, y: Value)
    requires 1 <= i < |s| && s[..i - 1] == done && s[i - 1] == x && s[i] == y
    ensures s[..i + 1] == done + [x, y]
  {
  }

  lemma {:induction false} ReplaceStops(m: Rec2Vid, key: Fields, oids: seq<Value>, n: nat)
    requires n <= |oids| && ReplaceEach(m, key, oids[..n]).None?
    ensures ReplaceEach(m, key, oids).None?
  {
    if n < |oids| {
      assert oids[..|oids| - 1][..n] == oids[..n];
      ReplaceStops(m, key, oids[..|oids| - 1], n);
    } else {
      assert oids[..n] == oids;
    }
  }

  lemma {:induction false} RewriteStops(m: Rec2Vid, attrs: seq<Value>, n: nat, exemptNull: bool)
    requires n <= |attrs| && RewriteAttrs(m, attrs[..n], exemptNull).None?
    ensures RewriteAttrs(m, attrs, exemptNull).None?
  {
    if n < |attrs| {
      assert attrs[..|attrs| - 1][..n] == attrs[..n];
      RewriteStops(m, attrs[..|attrs| - 1], n, exemptNull);
    } else {
      assert attrs[..n] == attrs;
    }
  }

  lemma OidsOfNext(data: seq<Value>, n: nat)
    requires n < |data|
    ensures OidsOf(data[..n + 1]) == OidsOf(data[..n]) + if n % 2 == 1 then OidsOfValue(data[n]) else []
  {
    assert data[..n + 1][..n] == data[..n];
  }

  lemma OidsOfPair(data: seq<Value>, j: nat)
    requires 2 * j + 1 < |data|
    ensures OidsOf(data[..2 * j + 2]) == OidsOf(data[..2 * j]) + OidsOfValue(data[2 * j + 1])
  {
    OidsOfNext(data, 2 * j);
    OidsOfNext(data, 2 * j + 1);
  }

  /** A name without a value at the end adds nothing. */
  lemma {:induction false} OidsOfRest(data: seq<Value>, n: nat)
    requires n % 2 == 0 && n <= |data| <= n + 1
    ensures OidsOf(data) == OidsOf(data[..n])
  {
    if n < |data| { OidsOfNext(data, n); }
    assert data[..|data|] == data;
  }

  /** If the n-th entry of a batch cannot be rewritten, neither can the batch. */
  lemma {:induction false} RewriteObjsNext(m: Rec2Vid, objs: seq<NewObj>, n: nat)
    requires n < |objs| && RewriteObjs(m, objs[..n]).Some?
    ensures RewriteAttrs(m, objs[n].attrs, true).None? ==> RewriteObjs(m, objs).None?
    ensures RewriteAttrs(m, objs[n].attrs, true).Some? ==>
      RewriteObjs(m, objs[..n + 1]) == Some(RewriteObjs(m, objs[..n]).value + [RewriteAttrs(m, objs[n].attrs, true).value])
  {
    assert objs[..n + 1][..n] == objs[..n];
    if RewriteAttrs(m, objs[n].attrs, true).None? { ObjsStop(m, objs, n + 1); }
  }

  lemma {:induction false} ObjsStop(m: Rec2Vid, objs: seq<NewObj>, n: nat)
    requires n <= |objs| && RewriteObjs(m, objs[..n]).None?
    ensures RewriteObjs(m, objs).None?
  {
    if n < |objs| {
      assert objs[..|objs| - 1][..n] == objs[..n];
      ObjsStop(m, objs[..|objs| - 1], n);
    } else {
      assert objs[..n] == objs;
    }
  }

  lemma {:induction false} RewriteEntriesNext(m: Rec2Vid, entries: seq<NewEntry>, n: nat)
    requires n < |entries| && RewriteEntries(m, entries[..n]).Some?
    ensures var attrs, key := RewriteAttrs(m, entries[n].attrs, true), RewriteFields(m, entries[n].key);
      && (attrs.None? || key.None? ==> RewriteEntries(m, entries).None?)
      && (attrs.Some? && key.Some? ==>
           RewriteEntries(m, entries[..n + 1]) == Some(RewriteEntries(m, entries[..n]).value + [NewEntry(key.value, attrs.value)]))
  {
    assert entries[..n + 1][..n] == entries[..n];
    if RewriteEntries(m, entries[..n + 1]).None? { EntriesStop(m, entries, n + 1); }
  }

  lemma {:induction false} EntriesStop(m: Rec2Vid, entries: seq<NewEntry>, n: nat)
    requires n <= |entries| && RewriteEntries(m, entries[..n]).None?
    ensures RewriteEntries(m, entries).None?
  {
    if n < |entries| {
      assert entries[..|entries| - 1][..n] == entries[..n];
      EntriesStop(m, entries[..|entries| - 1], n);
    } else {
      assert entries[..n] == entries;
    }
  }

  lemma {:induction false} RewriteChangesNext(m: Rec2Vid, changes: seq<Change>, n: nat)
    requires n < |changes| && RewriteChanges(m, changes[..n]).Some?
    ensures var c := RewriteChange(m, changes[n], true);
      && (c.None? ==> RewriteChanges(m, changes).None?)
      && (c.Some? ==> RewriteChanges(m, changes[..n + 1]) == Some(RewriteChanges(m, changes[..n]).value + [c.value]))
  {
    assert changes[..n + 1][..n] == changes[..n];
    if RewriteChange(m, changes[n], true).None? { ChangesStop(m, changes, n + 1); }
  }

  lemma {:induction false} ChangesStop(m: Rec2Vid, changes: seq<Change>, n: nat)
    requires n <= |changes| && RewriteChanges(m, changes[..n]).None?
    ensures RewriteChanges(m, changes).None?
  {
    if n < |changes| {
      assert changes[..|changes| - 1][..n] == changes[..n];
      ChangesStop(m, changes[..|changes| - 1], n);
    } else {
      assert changes[..n] == changes;
    }
  }

  lemma {:induction false} PopKeysNext(m: Rec2Vid, keys: seq<Handle>, n: nat)
    requires n < |keys| && PopKeys(m, keys[..n]).Some?
    ensures var pre := PopKeys(m, keys[..n]).value;
      var key := RewriteKey(pre.0, keys[n]);
      && (key.None? ==> PopKeys(m, keys).None?)
      && (key.Some? ==> PopKeys(m, keys[..n + 1]) == Some((Pop(pre.0, keys[n]), pre.1 + [key.value])))
  {
    assert keys[..n + 1][..n] == keys[..n];
    if PopKeys(m, keys[..n + 1]).None? { KeysStop(m, keys, n + 1); }
  }

  lemma {:induction false} KeysStop(m: Rec2Vid, keys: seq<Handle>, n: nat)
    requires n <= |keys| && PopKeys(m, keys[..n]).None?
    ensures PopKeys(m, keys).None?
  {
    if n < |keys| {
      assert keys[..|keys| - 1][..n] == keys[..n];
      KeysStop(m, keys[..|keys| - 1], n);
    } else {
      assert keys[..n] == keys;
    }
  }

  lemma {:induction false} RunNext(p: Profile, st: State, recs: seq<Record>, n: nat)
    requires n < |recs|
    ensures Run(p, st, recs[..n + 1]) == match Run(p, st, recs[..n]) case None => None case Some(st') => Step(p, st', recs[n])
  {
    assert recs[..n + 1][..n] == recs[..n];
  }

  lemma {:induction false} RunStops(p: Profile, st: State, recs: seq<Record>, n: nat)
    requires n <= |recs| && Run(p, st, recs[..n]).None?
    ensures Run(p, st, recs).None?
  {
    if n < |recs| {
      assert recs[..|recs| - 1][..n] == recs[..n];
      RunStops(p, st, recs[..|recs| - 1], n);
    } else {
      assert recs[..n] == recs;
    }
  }
}
