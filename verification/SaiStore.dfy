/**
  The abstract SAI object store that every SAI call acts on: objects named by an OID and
  entries named by a structured key, each with attributes that may refer to OIDs.

  The text of a value is represented by what the client code can see in it: a `$name`
  reference (Sym), a single OID (Ref), a list of OIDs (RefList), a JSON object (Dict), or
  any other text without "oid:" (Txt).
 */
module SaiStore {
  import opened Wrappers

  type ObjType = string

  /** An object id. `Null` is "oid:0x0"; `Vid` carries the type tag of a virtual id and its counter part. */
  datatype Oid = Null | Vid(ty: ObjType, num: nat)

  datatype Value =
    | Txt(text: string)
    | Sym(name: string)
    | Ref(oid: Oid)
    | RefList(oids: seq<Oid>)
    | Dict(fields: Fields)

  /** The fields of a JSON object, in order. */
  datatype Fields = NoFields | Field(name: string, val: Value, rest: Fields)

  datatype Handle = OidH(oid: Oid) | EntryH(ty: ObjType, key: Fields)

  type Attrs = map<string, Value>
  type Store = map<Handle, Attrs>

  datatype Status =
    | Success
    | AlreadyExists
    | NotFound
    | ObjectInUse
    | InvalidParameter
    | BufferOverflow
    | AttrNotSupported

  // ---------- references ----------

  predicate MentionsV(v: Value, o: Oid) {
    match v
    case Ref(p) => p == o
    case RefList(os) => o in os
    case Dict(f) => MentionsF(f, o)
    case Txt(_) => false
    case Sym(_) => false
  }

  predicate MentionsF(f: Fields, o: Oid) {
    match f
    case NoFields => false
    case Field(_, v, rest) => MentionsV(v, o) || MentionsF(rest, o)
  }

  predicate MentionsA(a: Attrs, o: Oid) {
    exists k | k in a :: MentionsV(a[k], o)
  }

  predicate Live(s: Store, o: Oid) {
    OidH(o) in s
  }

  /** An object refers to what its attributes mention, an entry also to what its key mentions. */
  predicate Refers(s: Store, h: Handle, o: Oid)
    requires h in s
  {
    (h.EntryH? && MentionsF(h.key, o)) || MentionsA(s[h], o)
  }

  predicate InUse(s: Store, o: Oid) {
    exists h | h in s :: Refers(s, h, o)
  }

  /** Every OID mentioned is null or live. */
  predicate LiveV(s: Store, v: Value) {
    match v
    case Ref(o) => o.Null? || Live(s, o)
    case RefList(os) => forall i | 0 <= i < |os| :: os[i].Null? || Live(s, os[i])
    case Dict(f) => LiveF(s, f)
    case Txt(_) => true
    case Sym(_) => true
  }

  predicate LiveF(s: Store, f: Fields) {
    match f
    case NoFields => true
    case Field(_, v, rest) => LiveV(s, v) && LiveF(s, rest)
  }

  // ---------- attribute lists: [name, value, name, value, ...] ----------

  predicate WellFormedAttrs(flat: seq<Value>) {
    |flat| == 0 || (|flat| >= 2 && WellFormedAttrs(flat[..|flat| - 2]) && flat[|flat| - 2].Txt?)
  }

  predicate LiveFlat(s: Store, flat: seq<Value>) {
    |flat| == 0 || (LiveFlat(s, flat[..|flat| - 1]) && LiveV(s, flat[|flat| - 1]))
  }

  function NameOf(v: Value): string {
    if v.Txt? then v.text else ""
  }

  function AttrMap(flat: seq<Value>): Attrs {
    if |flat| < 2 then map[]
    else AttrMap(flat[..|flat| - 2])[NameOf(flat[|flat| - 2]) := flat[|flat| - 1]]
  }

  // ---------- objects the switch creates by itself ----------

  /** An attribute of a companion object; slot 0 is the created object, slot i the i-th companion. */
  datatype Slot = SlotTxt(text: string) | SlotRef(slot: nat) | SlotRefs(slots: seq<nat>)
  datatype Extra = Extra(ty: ObjType, attrs: map<string, Slot>)
  datatype Companions = Companions(self: map<string, Slot>, extras: seq<Extra>)
  /** What creating an object of a type brings along, e.g. a switch its default bridge, VLAN and ports. */
  type Profile = map<ObjType, Companions>

  function CompanionsOf(p: Profile, ty: ObjType): Companions {
    if ty in p then p[ty] else Companions(map[], [])
  }

  function SlotOid(ids: seq<Oid>, i: nat): Oid {
    if i < |ids| then ids[i] else Null
  }

  function Fill(ids: seq<Oid>, t: Slot): Value {
    match t
    case SlotTxt(text) => Txt(text)
    case SlotRef(i) => Ref(SlotOid(ids, i))
    case SlotRefs(slots) => RefList(seq(|slots|, j requires 0 <= j < |slots| => SlotOid(ids, slots[j])))
  }

  function FillAll(ids: seq<Oid>, m: map<string, Slot>): Attrs {
    map k | k in m :: Fill(ids, m[k])
  }

  /** The store with the object `ids[0]` and its first n companions. */
  function NewObject(s: Store, ids: seq<Oid>, c: Companions, attrs: seq<Value>, n: nat): Store
    requires n <= |c.extras| && |ids| == 1 + |c.extras|
  {
    if n == 0 then s[OidH(ids[0]) := AttrMap(attrs) + FillAll(ids, c.self)]
    else NewObject(s, ids, c, attrs, n - 1)[OidH(ids[n]) := FillAll(ids, c.extras[n - 1].attrs)]
  }

  // ---------- the four operations ----------

  function CreateStatus(s: Store, h: Handle, attrs: seq<Value>): Status {
    if !WellFormedAttrs(attrs) then InvalidParameter
    else if h in s then AlreadyExists
    else if !((h.EntryH? ==> LiveF(s, h.key)) && LiveFlat(s, attrs)) then InvalidParameter
    else Success
  }

  function CreateEntry(s: Store, ty: ObjType, key: Fields, attrs: seq<Value>): (r: (Status, Store)) {
    var st := CreateStatus(s, EntryH(ty, key), attrs);
    (st, if st == Success then s[EntryH(ty, key) := AttrMap(attrs)] else s)
  }

  /** Create the object `ids[0]`; `ids[1..]` name its companions. */
  function WithObject(p: Profile, s: Store, ids: seq<Oid>, attrs: seq<Value>): Store
    requires |ids| > 0 && ids[0].Vid?
    requires |ids| == 1 + |CompanionsOf(p, ids[0].ty).extras|
  {
    var c := CompanionsOf(p, ids[0].ty);
    NewObject(s, ids, c, attrs, |c.extras|)
  }

  function RemoveObj(s: Store, h: Handle): (r: (Status, Store)) {
    if h !in s then (NotFound, s)
    else if h.OidH? && InUse(s, h.oid) then (ObjectInUse, s)
    else (Success, s - {h})
  }

  function SetAttr(s: Store, h: Handle, attr: seq<Value>): (r: (Status, Store)) {
    if h !in s then (NotFound, s)
    else if |attr| != 2 || !WellFormedAttrs(attr) || !LiveV(s, attr[1]) then (InvalidParameter, s)
    else (Success, s[h := s[h][attr[0].text := attr[1]]])
  }

  function Capacity(placeholder: Value): nat {
    if placeholder.RefList? then |placeholder.oids| else 1
  }

  /** A read of one attribute: a list longer than the caller's buffer is refused. */
  function ReadStatus(a: Attrs, name: Value, placeholder: Value): Status {
    if !name.Txt? || name.text !in a then AttrNotSupported
    else
      var v := a[name.text];
      if v.RefList? && |v.oids| > Capacity(placeholder) then BufferOverflow else Success
  }

  function ReadAll(a: Attrs, req: seq<Value>): (r: (Status, seq<Value>)) {
    if |req| == 0 then (Success, [])
    else if |req| == 1 then (InvalidParameter, [])
    else
      var (st, pre) := ReadAll(a, req[..|req| - 2]);
      if st != Success then (st, [])
      else
        var st' := ReadStatus(a, req[|req| - 2], req[|req| - 1]);
        if st' != Success then (st', []) else (Success, pre + [req[|req| - 2], a[req[|req| - 2].text]])
  }

  function GetAttrs(s: Store, h: Handle, req: seq<Value>): (r: (Status, seq<Value>)) {
    if h !in s then (NotFound, []) else ReadAll(s[h], req)
  }

  // ---------- the device: a store and the counter that virtual ids come from ----------

  datatype Dev = Dev(store: Store, next: nat)

  function ExtraIds(extras: seq<Extra>, from: nat): (r: seq<Oid>)
    ensures |r| == |extras|
  {
    seq(|extras|, i requires 0 <= i < |extras| => Vid(extras[i].ty, from + i))
  }

  /** The ids of a new object `own` and of the companions it will bring. */
  function IdsAt(p: Profile, d: Dev, own: Oid): (r: seq<Oid>)
    requires own.Vid?
    ensures |r| == 1 + |CompanionsOf(p, own.ty).extras| && r[0] == own
  {
    [own] + ExtraIds(CompanionsOf(p, own.ty).extras, d.next)
  }

  /** The device after creating an object whose own id has been allocated already. */
  function DevWith(p: Profile, d: Dev, own: Oid, attrs: seq<Value>): Dev
    requires own.Vid?
  {
    Dev(WithObject(p, d.store, IdsAt(p, d, own), attrs), d.next + |CompanionsOf(p, own.ty).extras|)
  }

  /** Allocate an id, then create the object under it; a refused create still uses up the id. */
  function DevCreate(p: Profile, d: Dev, ty: ObjType, attrs: seq<Value>): (r: (Dev, Status, Oid)) {
    var own := Vid(ty, d.next);
    var st := CreateStatus(d.store, OidH(own), attrs);
    var d' := Dev(d.store, d.next + 1);
    (if st == Success then DevWith(p, d', own, attrs) else d', st, own)
  }
}
