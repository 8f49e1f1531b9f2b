/** What the operations of the store come to, without their recursions. */
module StoreMeaning {
  import opened Wrappers
  import opened SaiStore

  /** Every OID the value mentions, at any depth, is null or that of a live object. */
  ghost predicate AllThere(s: Store, v: Value) {
    forall o | MentionsV(v, o) :: o == Null || OidH(o) in s
  }

  ghost predicate AllThereF(s: Store, f: Fields) {
    forall o | MentionsF(f, o) :: o == Null || OidH(o) in s
  }

  lemma {:induction false} LiveExactly(s: Store, v: Value)
    ensures LiveV(s, v) <==> AllThere(s, v)
  {
    match v
    case Ref(o) => assert MentionsV(v, o);
    case RefList(os) => assert forall i | 0 <= i < |os| :: MentionsV(v, os[i]);
    case Dict(f) =>
      LiveExactlyF(s, f);
      assert forall o :: MentionsV(v, o) <==> MentionsF(f, o);
    case Txt(_) =>
    case Sym(_) =>
  }

  lemma {:induction false} LiveExactlyF(s: Store, f: Fields)
    ensures LiveF(s, f) <==> AllThereF(s, f)
  {
    match f
    case NoFields =>
    case Field(_, v, rest) =>
      LiveExactly(s, v);
      LiveExactlyF(s, rest);
      assert forall o :: MentionsF(f, o) <==> MentionsV(v, o) || MentionsF(rest, o);
  }

  /** Names and values by turns, and all that the values name is there. */
  predicate GoodList(s: Store, attrs: seq<Value>) {
    |attrs| % 2 == 0 && forall i | 0 <= i < |attrs| :: (i % 2 == 0 ==> attrs[i].Txt?) && LiveV(s, attrs[i])
  }

  lemma {:induction false} GoodListIs(s: Store, attrs: seq<Value>)
    ensures GoodList(s, attrs) <==> WellFormedAttrs(attrs) && LiveFlat(s, attrs)
  {
    if |attrs| >= 2 {
      var n := |attrs| - 2;
      GoodListIs(s, attrs[..n]);
      assert attrs[..n + 1][..n] == attrs[..n];
      assert LiveFlat(s, attrs) <==> LiveFlat(s, attrs[..n]) && LiveV(s, attrs[n]) && LiveV(s, attrs[n + 1]);
      assert GoodList(s, attrs) <==> GoodList(s, attrs[..n]) && attrs[n].Txt? && LiveV(s, attrs[n]) && LiveV(s, attrs[n + 1]) by {
        assert forall i | 0 <= i < n :: attrs[i] == attrs[..n][i];
      }
    }
  }

  /** The last value the list gives for the name. */
  predicate Gives(attrs: seq<Value>, name: string, v: Value) {
    exists i :: 0 <= i < |attrs| - 1 && GivesAt(attrs, name, v, i)
  }

  predicate GivesAt(attrs: seq<Value>, name: string, v: Value, i: nat)
    requires i + 1 < |attrs|
  {
    && i % 2 == 0 && attrs[i] == Txt(name) && attrs[i + 1] == v
    && forall j | i < j < |attrs| && j % 2 == 0 :: attrs[j] != Txt(name)
  }

  lemma {:induction false} EvenLength(attrs: seq<Value>)
    requires WellFormedAttrs(attrs)
    ensures |attrs| % 2 == 0
  {
    if |attrs| >= 2 { EvenLength(attrs[..|attrs| - 2]); }
  }

  lemma GivesMore(attrs: seq<Value>, n: nat, name: string, v: Value)
    requires |attrs| == n + 2 && n % 2 == 0
    ensures attrs[n] == Txt(name) ==> (Gives(attrs, name, v) <==> attrs[n + 1] == v)
    ensures attrs[n] != Txt(name) ==> (Gives(attrs, name, v) <==> Gives(attrs[..n], name, v))
  {
    var pre := attrs[..n];
    if attrs[n] == Txt(name) && attrs[n + 1] == v { assert GivesAt(attrs, name, v, n); }
    if attrs[n] != Txt(name) {
      forall i | 0 <= i < n - 1 ensures GivesAt(pre, name, v, i) <==> GivesAt(attrs, name, v, i) {
        assert forall j | 0 <= j < n :: pre[j] == attrs[j];
      }
      if Gives(attrs, name, v) {
        var i :| 0 <= i < |attrs| - 1 && GivesAt(attrs, name, v, i);
        assert i < n - 1 && GivesAt(pre, name, v, i);
      }
      if Gives(pre, name, v) {
        var i :| 0 <= i < |pre| - 1 && GivesAt(pre, name, v, i);
        assert GivesAt(attrs, name, v, i);
      }
    }
  }

  /** An object gets of each name the last value its list gives, and nothing else. */
  lemma {:induction false} AttrsAreGiven(attrs: seq<Value>, name: string, v: Value)
    requires WellFormedAttrs(attrs)
    ensures name in AttrMap(attrs) && AttrMap(attrs)[name] == v <==> Gives(attrs, name, v)
  {
    if |attrs| >= 2 {
      EvenLength(attrs);
      AttrsAreGiven(attrs[..|attrs| - 2], name, v);
      GivesMore(attrs, |attrs| - 2, name, v);
    }
  }

  /** A create is refused exactly if the list is bad, the object is there already, or a key names what is not there. */
  lemma {:induction false} CreatedExactly(s: Store, h: Handle, attrs: seq<Value>)
    ensures CreateStatus(s, h, attrs) == Success <==> h !in s && GoodList(s, attrs) && (h.EntryH? ==> LiveF(s, h.key))
    ensures CreateStatus(s, h, attrs) == AlreadyExists <==> h in s && WellFormedAttrs(attrs)
  {
    GoodListIs(s, attrs);
  }

  /** A set is refused exactly if the object is not there, or the pair is not a name and a value that names what is there. */
  lemma SetExactly(s: Store, h: Handle, attr: seq<Value>)
    ensures var (status, t) := SaiStore.SetAttr(s, h, attr);
      && (status == Success <==> h in s && |attr| == 2 && GoodList(s, attr))
      && t.Keys == s.Keys && (forall g | g in s && (g != h || status != Success) :: t[g] == s[g])
      && (status == Success ==>
           && t[h].Keys == s[h].Keys + {attr[0].text} && t[h][attr[0].text] == attr[1]
           && forall k | k in s[h] && k != attr[0].text :: t[h][k] == s[h][k])
  {
    GoodListIs(s, attr);
    if |attr| == 2 { assert attr[..0] == [] && WellFormedAttrs([]); }
  }

  /** A remove is refused exactly if the object is not there or, not being an entry, is referred to. */
  lemma RemovedExactly(s: Store, h: Handle)
    ensures var (status, t) := RemoveObj(s, h);
      && (status == NotFound <==> h !in s) && (status == NotFound || status == ObjectInUse || status == Success)
      && (status == Success <==> h in s && (h.OidH? ==> forall g | g in s :: !Refers(s, g, h.oid)))
      && (h !in t || status != Success) && (forall g | g != h || status != Success :: (g in t <==> g in s) && (g in s ==> t[g] == s[g]))
  {
  }

  /** The attribute is there, and a list of OIDs is no longer than the list in the request, or than one. */
  predicate Readable(a: Attrs, name: Value, placeholder: Value) {
    && name.Txt? && name.text in a
    && match a[name.text]
       case RefList(os) => |os| <= (if placeholder.RefList? then |placeholder.oids| else 1)
       case _ => true
  }

  /** An attribute that is not there is refused as unsupported, a list that is too long with an overflow. */
  lemma RefusedReads(a: Attrs, name: Value, placeholder: Value)
    ensures ReadStatus(a, name, placeholder) == Success <==> Readable(a, name, placeholder)
    ensures ReadStatus(a, name, placeholder) == AttrNotSupported <==> !name.Txt? || name.text !in a
    ensures ReadStatus(a, name, placeholder) != Success ==>
      ReadStatus(a, name, placeholder) == AttrNotSupported || ReadStatus(a, name, placeholder) == BufferOverflow
  {
  }

  predicate AllReadable(a: Attrs, req: seq<Value>) {
    |req| % 2 == 0 && forall i | 0 <= i < |req| - 1 && i % 2 == 0 :: Readable(a, req[i], req[i + 1])
  }

  /** The reply pairs each name of the request with the value the object has. */
  predicate Answers(a: Attrs, req: seq<Value>, reply: seq<Value>) {
    && |reply| == |req|
    && forall i | 0 <= i < |req| - 1 && i % 2 == 0 ::
         reply[i] == req[i] && req[i].Txt? && req[i].text in a && reply[i + 1] == a[req[i].text]
  }

  lemma AllReadableSnoc(a: Attrs, req: seq<Value>, n: nat)
    requires |req| == n + 2
    ensures AllReadable(a, req) <==> AllReadable(a, req[..n]) && Readable(a, req[n], req[n + 1])
  {
    assert forall i | 0 <= i < n :: req[..n][i] == req[i];
    if AllReadable(a, req) {
      forall i | 0 <= i < n - 1 && i % 2 == 0 ensures Readable(a, req[..n][i], req[..n][i + 1]) { assert Readable(a, req[i], req[i + 1]); }
    }
  }

  lemma AnswersSnoc(a: Attrs, req: seq<Value>, n: nat, pre: seq<Value>)
    requires |req| == n + 2 && n % 2 == 0 && Answers(a, req[..n], pre) && req[n].Txt? && req[n].text in a
    ensures Answers(a, req, pre + [req[n], a[req[n].text]])
  {
    assert forall i | 0 <= i < n :: req[..n][i] == req[i];
  }

  /** A read succeeds exactly if each attribute can be read, and then answers them all. */
  lemma {:induction false} ReadExactly(a: Attrs, req: seq<Value>)
    ensures ReadAll(a, req).0 == Success <==> AllReadable(a, req)
    ensures ReadAll(a, req).0 == Success ==> Answers(a, req, ReadAll(a, req).1)
    decreases |req|
  {
    if |req| >= 2 {
      var n := |req| - 2;
      ReadExactly(a, req[..n]);
      AllReadableSnoc(a, req, n);
      assert Readable(a, req[n], req[n + 1]) <==> ReadStatus(a, req[n], req[n + 1]) == Success;
      if AllReadable(a, req) { AnswersSnoc(a, req, n, ReadAll(a, req[..n]).1); }
    }
  }

  // ---------- companions ----------

  /** The value of the slot: its text, or the OIDs of the objects made together that it names. */
  predicate Filled(ids: seq<Oid>, t: Slot, v: Value) {
    match t
    case SlotTxt(text) => v == Txt(text)
    case SlotRef(k) => k < |ids| ==> v == Ref(ids[k])
    case SlotRefs(slots) => v.RefList? && |v.oids| == |slots| && forall j | 0 <= j < |slots| && slots[j] < |ids| :: v.oids[j] == ids[slots[j]]
  }

  ghost predicate AllFilled(ids: seq<Oid>, m: map<string, Slot>, a: Attrs) {
    forall k | k in m :: k in a && Filled(ids, m[k], a[k])
  }

  /** The object has what it was given and what the switch adds; each companion is there with its attributes and no others. */
  lemma {:induction false} CompanionsAreMade(s: Store, ids: seq<Oid>, c: Companions, attrs: seq<Value>, n: nat, i: nat)
    requires n <= |c.extras| && |ids| == 1 + |c.extras| && i <= n && forall j, k | 0 <= j < k < |ids| :: ids[j] != ids[k]
    ensures OidH(ids[i]) in NewObject(s, ids, c, attrs, n)
    ensures var a := NewObject(s, ids, c, attrs, n)[OidH(ids[i])];
      if i > 0 then a.Keys == c.extras[i - 1].attrs.Keys && AllFilled(ids, c.extras[i - 1].attrs, a)
      else AllFilled(ids, c.self, a) && a.Keys == AttrMap(attrs).Keys + c.self.Keys &&
           forall k | k in AttrMap(attrs) && k !in c.self :: a[k] == AttrMap(attrs)[k]
  {
    if i < n { CompanionsAreMade(s, ids, c, attrs, n - 1, i); }
  }
}
