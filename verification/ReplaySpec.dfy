/**
  What replaying one sairedis record does to the live switch and to `rec2vid`, as functions.
  `None` is a raised exception: a KeyError of a lookup, a failed assert.
 */
module ReplaySpec {
  import opened Wrappers
  import opened SaiStore

  /** Maps the text of a recorded OID, or of a recorded entry key, to its live counterpart. */
  type Rec2Vid = map<Value, Value>

  datatype NewObj = NewObj(oid: Oid, attrs: seq<Value>)
  datatype NewEntry = NewEntry(key: Fields, attrs: seq<Value>)
  datatype Change = Change(key: Handle, attr: seq<Value>)

  datatype Record =
    | Create(key: Handle, attrs: seq<Value>)                          // c
    | SetOne(key: Handle, attr: seq<Value>)                           // s
    | Remove(key: Handle)                                             // r
    | Get(key: Handle, attrs: seq<Value>)                             // g
    | Reply(attrs: seq<Value>)                                        // G
    | Expect(status: Status)                                          // E
    | BulkCreateObjects(ty: ObjType, objs: seq<NewObj>)               // C, OID keys
    | BulkCreateEntries(ty: ObjType, entries: seq<NewEntry>)          // C, entry keys
    | BulkSet(changes: seq<Change>)                                   // S
    | BulkRemove(keys: seq<Handle>)                                   // R
    | Ignored

  datatype State = State(dev: Dev, rec2vid: Rec2Vid, oids: seq<Oid>, status: Option<Status>)

  // ---------- rewriting OIDs ----------

  /** The text contains "oid:". */
  predicate HasOid(v: Value) {
    match v
    case Ref(_) => true
    case RefList(os) => |os| > 0
    case Dict(f) => FieldsHaveOid(f)
    case Txt(_) => false
    case Sym(_) => false
  }

  predicate FieldsHaveOid(f: Fields) {
    match f
    case NoFields => false
    case Field(_, v, rest) => HasOid(v) || FieldsHaveOid(rest)
  }

  function Lookup(m: Rec2Vid, v: Value): Option<Value> {
    if v in m then Some(m[v]) else None
  }

  /** The value at position i of an attribute list is looked up if it is a value and has an OID. */
  predicate NeedsLookup(v: Value, i: nat, exemptNull: bool) {
    i % 2 == 1 && HasOid(v) && !(exemptNull && v == Ref(Null))
  }

  function RewriteAttrs(m: Rec2Vid, attrs: seq<Value>, exemptNull: bool): (r: Option<seq<Value>>)
    ensures r.Some? ==> |r.value| == |attrs|
  {
    if |attrs| == 0 then Some([])
    else
      var n := |attrs| - 1;
      match RewriteAttrs(m, attrs[..n], exemptNull) case None => None case Some(pre) =>
      if NeedsLookup(attrs[n], n, exemptNull) then (
        match Lookup(m, attrs[n]) case None => None case Some(v) =>
        Some(pre + [v]))
      else
        Some(pre + [attrs[n]])
  }

  /** The values of a key that have an OID, in order; an object inside the key is looked into. */
  function OidTokens(f: Fields): seq<Value> {
    match f
    case NoFields => []
    case Field(_, v, rest) =>
      (if v.Dict? then OidTokens(v.fields) else if HasOid(v) then [v] else []) + OidTokens(rest)
  }

  /** Every value that reads like `x` replaced by `w`, wherever it stands in the key. */
  function Replaced(f: Fields, x: Value, w: Value): Fields {
    match f
    case NoFields => NoFields
    case Field(n, v, rest) =>
      Field(n, if v.Dict? then Dict(Replaced(v.fields, x, w)) else if v == x then w else v, Replaced(rest, x, w))
  }

  function ReplaceEach(m: Rec2Vid, f: Fields, tokens: seq<Value>): Option<Fields> {
    if |tokens| == 0 then Some(f)
    else
      var n := |tokens| - 1;
      match ReplaceEach(m, f, tokens[..n]) case None => None case Some(f') =>
      match Lookup(m, tokens[n]) case None => None case Some(w) =>
      Some(Replaced(f', tokens[n], w))
  }

  /** The OIDs of an entry key are replaced by their counterparts one after the other, each in the whole key. */
  function RewriteFields(m: Rec2Vid, f: Fields): Option<Fields> {
    ReplaceEach(m, f, OidTokens(f))
  }

  function LookupOid(m: Rec2Vid, o: Oid): Option<Oid> {
    if Ref(o) in m && m[Ref(o)].Ref? then Some(m[Ref(o)].oid) else None
  }

  function RewriteKey(m: Rec2Vid, key: Handle): Option<Handle> {
    match key
    case OidH(o) => (
      match LookupOid(m, o) case None => None case Some(vid) =>
      Some(OidH(vid)))
    case EntryH(ty, f) =>
      match RewriteFields(m, f) case None => None case Some(f') =>
      Some(EntryH(ty, f'))
  }

  /** A remove takes the OID out of the map. */
  function Pop(m: Rec2Vid, key: Handle): Rec2Vid {
    if key.OidH? then m - {Ref(key.oid)} else m
  }

  // ---------- OIDs in replies ----------

  function OidsOfValue(v: Value): seq<Oid> {
    match v
    case Ref(o) => [o]
    case RefList(os) => os
    case Dict(_) => []
    case Txt(_) => []
    case Sym(_) => []
  }

  function OidsOf(attrs: seq<Value>): seq<Oid> {
    if |attrs| == 0 then []
    else
      var n := |attrs| - 1;
      OidsOf(attrs[..n]) + if n % 2 == 1 then OidsOfValue(attrs[n]) else []
  }

  function Learn(m: Rec2Vid, recorded: seq<Oid>, live: seq<Oid>): Rec2Vid
    requires |recorded| == |live|
  {
    if |recorded| == 0 then m
    else
      var n := |recorded| - 1;
      Learn(m, recorded[..n], live[..n])[Ref(recorded[n]) := Ref(live[n])]
  }

  // ---------- bulk calls on the device: one entry after the other, all must succeed ----------

  function CreateMany(p: Profile, d: Dev, ty: ObjType, base: nat, attrs: seq<seq<Value>>): Option<Dev> {
    if |attrs| == 0 then Some(d)
    else
      var n := |attrs| - 1;
      match CreateMany(p, d, ty, base, attrs[..n]) case None => None case Some(d') =>
      if CreateStatus(d'.store, OidH(Vid(ty, base + n)), attrs[n]) == Success
      then Some(DevWith(p, d', Vid(ty, base + n), attrs[n])) else None
  }

  function CreateEntries(s: Store, ty: ObjType, entries: seq<NewEntry>): Option<Store> {
    if |entries| == 0 then Some(s)
    else
      var n := |entries| - 1;
      match CreateEntries(s, ty, entries[..n]) case None => None case Some(s') =>
      var (st, s'') := CreateEntry(s', ty, entries[n].key, entries[n].attrs);
      if st == Success then Some(s'') else None
  }

  function SetMany(s: Store, changes: seq<Change>): Option<Store> {
    if |changes| == 0 then Some(s)
    else
      var n := |changes| - 1;
      match SetMany(s, changes[..n]) case None => None case Some(s') =>
      var (st, s'') := SaiStore.SetAttr(s', changes[n].key, changes[n].attr);
      if st == Success then Some(s'') else None
  }

  function RemoveMany(s: Store, keys: seq<Handle>): Option<Store> {
    if |keys| == 0 then Some(s)
    else
      var n := |keys| - 1;
      match RemoveMany(s, keys[..n]) case None => None case Some(s') =>
      var (st, s'') := RemoveObj(s', keys[n]);
      if st == Success then Some(s'') else None
  }

  // ---------- rewriting the entries of a bulk record, all before the bulk call ----------

  function RewriteObjs(m: Rec2Vid, objs: seq<NewObj>): (r: Option<seq<seq<Value>>>)
    ensures r.Some? ==> |r.value| == |objs|
  {
    if |objs| == 0 then Some([])
    else
      var n := |objs| - 1;
      match RewriteObjs(m, objs[..n]) case None => None case Some(pre) =>
      match RewriteAttrs(m, objs[n].attrs, true) case None => None case Some(attrs) =>
      Some(pre + [attrs])
  }

  function RewriteEntries(m: Rec2Vid, entries: seq<NewEntry>): (r: Option<seq<NewEntry>>)
    ensures r.Some? ==> |r.value| == |entries|
  {
    if |entries| == 0 then Some([])
    else
      var n := |entries| - 1;
      match RewriteEntries(m, entries[..n]) case None => None case Some(pre) =>
      match RewriteAttrs(m, entries[n].attrs, true) case None => None case Some(attrs) =>
      match RewriteFields(m, entries[n].key) case None => None case Some(key) =>
      Some(pre + [NewEntry(key, attrs)])
  }

  function RewriteChange(m: Rec2Vid, c: Change, exemptNull: bool): Option<Change> {
    if |c.attr| < 2 then None
    else
      match RewriteAttrs(m, c.attr[..2], exemptNull) case None => None case Some(attr) =>
      match RewriteKey(m, c.key) case None => None case Some(key) =>
      Some(Change(key, attr + c.attr[2..]))
  }

  function RewriteChanges(m: Rec2Vid, changes: seq<Change>): (r: Option<seq<Change>>)
    ensures r.Some? ==> |r.value| == |changes|
  {
    if |changes| == 0 then Some([])
    else
      var n := |changes| - 1;
      match RewriteChanges(m, changes[..n]) case None => None case Some(pre) =>
      match RewriteChange(m, changes[n], true) case None => None case Some(c) =>
      Some(pre + [c])
  }

  function PopKeys(m: Rec2Vid, keys: seq<Handle>): (r: Option<(Rec2Vid, seq<Handle>)>)
    ensures r.Some? ==> |r.value.1| == |keys|
  {
    if |keys| == 0 then Some((m, []))
    else
      var n := |keys| - 1;
      match PopKeys(m, keys[..n]) case None => None case Some(pre) =>
      match RewriteKey(pre.0, keys[n]) case None => None case Some(key) =>
      Some((Pop(pre.0, keys[n]), pre.1 + [key]))
  }

  function ObjOids(objs: seq<NewObj>): (r: seq<Oid>)
    ensures |r| == |objs|
  {
    seq(|objs|, i requires 0 <= i < |objs| => objs[i].oid)
  }

  function OwnIds(ty: ObjType, base: nat, n: nat): (r: seq<Oid>)
    ensures |r| == n
  {
    seq(n, i requires 0 <= i < n => Vid(ty, base + i))
  }

  // ---------- one record ----------

  function CreateStep(p: Profile, st: State, key: Handle, attrs: seq<Value>): Option<State> {
    match RewriteAttrs(st.rec2vid, attrs, false) case None => None case Some(attrs') =>
    match key
    case OidH(o) =>
      if o.Null? then None
      else
        var (d, status, vid) := DevCreate(p, st.dev, o.ty, attrs');
        Some(if status == Success then Named(st, o, vid, d) else st.(dev := d, status := Some(status)))
    case EntryH(ty, f) =>
      match RewriteFields(st.rec2vid, f) case None => None case Some(f') =>
      var (status, s) := CreateEntry(st.dev.store, ty, f', attrs');
      var m := if status == Success then st.rec2vid[Dict(f) := Dict(f')] else st.rec2vid;
      Some(st.(dev := st.dev.(store := s), rec2vid := m, status := Some(status)))
  }

  /** A created object is known by its recorded OID from now on. */
  function Named(st: State, o: Oid, vid: Oid, d: Dev): State {
    State(d, st.rec2vid[Ref(o) := Ref(vid)], st.oids, Some(Success))
  }

  function SetStep(st: State, key: Handle, attr: seq<Value>): Option<State> {
    match RewriteChange(st.rec2vid, Change(key, attr), false) case None => None case Some(c) =>
    var (status, s) := SaiStore.SetAttr(st.dev.store, c.key, c.attr);
    if status == Success then Some(st.(dev := st.dev.(store := s))) else None
  }

  function RemoveStep(st: State, key: Handle): Option<State> {
    match RewriteKey(st.rec2vid, key) case None => None case Some(key') =>
    var (status, s) := RemoveObj(st.dev.store, key');
    if status == Success
    then Some(st.(dev := st.dev.(store := s), rec2vid := Pop(st.rec2vid, key)))
    else None
  }

  function GetStep(st: State, key: Handle, attrs: seq<Value>): Option<State> {
    match RewriteKey(st.rec2vid, key) case None => None case Some(key') =>
    var (status, reply) := GetAttrs(st.dev.store, key', attrs);
    var oids := if status == Success then st.oids + OidsOf(reply) else st.oids;
    Some(st.(oids := oids, status := Some(status)))
  }

  function ReplyStep(st: State, attrs: seq<Value>): Option<State> {
    var recorded := OidsOf(attrs);
    if |recorded| != |st.oids| then None
    else Some(st.(rec2vid := Learn(st.rec2vid, recorded, st.oids), oids := []))
  }

  function ExpectStep(st: State, status: Status): Option<State> {
    if st.status == Some(status) || st.status == Some(Success) then Some(st) else None
  }

  function BulkCreateObjectsStep(p: Profile, st: State, ty: ObjType, objs: seq<NewObj>): Option<State> {
    if |objs| == 0 then None
    else
      match RewriteObjs(st.rec2vid, objs) case None => None case Some(attrs) =>
      var base := st.dev.next;
      match CreateMany(p, Dev(st.dev.store, base + |objs|), ty, base, attrs) case None => None case Some(d) =>
      Some(Created(st, ty, objs, d))
  }

  /** The names of a whole batch are learned after the bulk call. */
  function Created(st: State, ty: ObjType, objs: seq<NewObj>, d: Dev): State {
    st.(dev := d, rec2vid := Learn(st.rec2vid, ObjOids(objs), OwnIds(ty, st.dev.next, |objs|)))
  }

  function BulkCreateEntriesStep(st: State, ty: ObjType, entries: seq<NewEntry>): Option<State> {
    if |entries| == 0 then None
    else
      match RewriteEntries(st.rec2vid, entries) case None => None case Some(entries') =>
      match CreateEntries(st.dev.store, ty, entries') case None => None case Some(s) =>
      Some(st.(dev := st.dev.(store := s)))
  }

  function BulkSetStep(st: State, changes: seq<Change>): Option<State> {
    match RewriteChanges(st.rec2vid, changes) case None => None case Some(changes') =>
    match SetMany(st.dev.store, changes') case None => None case Some(s) =>
    Some(st.(dev := st.dev.(store := s)))
  }

  function BulkRemoveStep(st: State, keys: seq<Handle>): Option<State> {
    match PopKeys(st.rec2vid, keys) case None => None case Some(popped) =>
    match RemoveMany(st.dev.store, popped.1) case None => None case Some(s) =>
    Some(st.(dev := st.dev.(store := s), rec2vid := popped.0))
  }

  function Step(p: Profile, st: State, rec: Record): Option<State> {
    match rec
    case Create(key, attrs) => CreateStep(p, st, key, attrs)
    case SetOne(key, attr) => SetStep(st, key, attr)
    case Remove(key) => RemoveStep(st, key)
    case Get(key, attrs) => GetStep(st, key, attrs)
    case Reply(attrs) => ReplyStep(st, attrs)
    case Expect(status) => ExpectStep(st, status)
    case BulkCreateObjects(ty, objs) => BulkCreateObjectsStep(p, st, ty, objs)
    case BulkCreateEntries(ty, entries) => BulkCreateEntriesStep(st, ty, entries)
    case BulkSet(changes) => BulkSetStep(st, changes)
    case BulkRemove(keys) => BulkRemoveStep(st, keys)
    case Ignored => Some(st)
  }

  function Run(p: Profile, st: State, recs: seq<Record>): Option<State> {
    if |recs| == 0 then Some(st)
    else
      var n := |recs| - 1;
      match Run(p, st, recs[..n]) case None => None case Some(st') =>
      Step(p, st', recs[n])
  }
}
