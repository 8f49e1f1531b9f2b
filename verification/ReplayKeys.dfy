/**
  Entry keys of a recording: the code replaces the OIDs of a key one after the other, each
  wherever it stands.  This is what is meant exactly when no new OID is replaced again.
 */
module ReplayKeys {
  import opened Wrappers
  import opened SaiStore
  import opened ReplaySpec

  /** What is meant: every OID replaced by its counterpart, all at the same time. */
  ghost function Meant(m: Rec2Vid, f: Fields): Fields {
    match f
    case NoFields => NoFields
    case Field(n, v, rest) => Field(n, if v.Dict? then Dict(Meant(m, v.fields)) else MeantV(m, v), Meant(m, rest))
  }

  ghost function MeantV(m: Rec2Vid, v: Value): Value {
    if HasOid(v) && v in m then m[v] else v
  }

  /** Counterparts of OIDs are no JSON objects. */
  ghost predicate Flat(m: Rec2Vid) {
    forall v | v in m && !v.Dict? :: !m[v].Dict?
  }

  ghost predicate Tokens(m: Rec2Vid, tokens: seq<Value>) {
    forall i | 0 <= i < |tokens| :: tokens[i] in m && !tokens[i].Dict?
  }

  /** The counterpart of a token is a later token, which is not its own counterpart. */
  predicate Chained(m: Rec2Vid, tokens: seq<Value>, i: nat, k: nat) {
    i < k < |tokens| && tokens[i] in m && tokens[k] in m && m[tokens[i]] == tokens[k] && m[tokens[k]] != tokens[k]
  }

  ghost predicate Unchained(m: Rec2Vid, tokens: seq<Value>, n: nat) {
    forall i: nat, k: nat | k < n :: !Chained(m, tokens, i, k)
  }

  /** No counterpart of an OID of the key is a later OID of the key with another counterpart. */
  ghost predicate CleanKey(m: Rec2Vid, f: Fields) {
    Unchained(m, OidTokens(f), |OidTokens(f)|)
  }

  ghost predicate CleanH(m: Rec2Vid, key: Handle) {
    key.EntryH? ==> CleanKey(m, key.key)
  }

  /** Every entry key of the record is clean. */
  ghost predicate Clean(m: Rec2Vid, rec: Record) {
    match rec
    case Create(key, _) => CleanH(m, key)
    case SetOne(key, _) => CleanH(m, key)
    case Remove(key) => CleanH(m, key)
    case Get(key, _) => CleanH(m, key)
    case BulkCreateEntries(_, entries) => forall i | 0 <= i < |entries| :: CleanKey(m, entries[i].key)
    case BulkSet(changes) => forall i | 0 <= i < |changes| :: CleanH(m, changes[i].key)
    case BulkRemove(keys) => forall i | 0 <= i < |keys| :: CleanH(m, keys[i])
    case _ => true
  }

  /** A map that says no more keeps a key clean. */
  ghost predicate Within(m': Rec2Vid, m: Rec2Vid) {
    forall v | v in m' && !v.Dict? :: v in m && m'[v] == m[v]
  }

  lemma CleanWithin(m': Rec2Vid, m: Rec2Vid, f: Fields)
    requires Within(m', m) && CleanKey(m, f)
    ensures CleanKey(m', f)
  {
    var tokens := OidTokens(f);
    TokensOfKey(f);
    forall i: nat, k: nat | k < |tokens| ensures !Chained(m', tokens, i, k) { assert !Chained(m, tokens, i, k); }
  }

  lemma {:induction false} TokensOfKey(f: Fields)
    ensures forall i | 0 <= i < |OidTokens(f)| :: HasOid(OidTokens(f)[i]) && !OidTokens(f)[i].Dict?
  {
    match f
    case NoFields =>
    case Field(_, v, rest) =>
      TokensOfKey(rest);
      if v.Dict? { TokensOfKey(v.fields); }
  }

  /** The replacement raises exactly when a token is unknown. */
  lemma {:induction false} ReplacesIffKnown(m: Rec2Vid, f: Fields, tokens: seq<Value>)
    ensures ReplaceEach(m, f, tokens).Some? <==> forall i | 0 <= i < |tokens| :: tokens[i] in m
  {
    if |tokens| > 0 {
      var n := |tokens| - 1;
      ReplacesIffKnown(m, f, tokens[..n]);
      assert forall i | 0 <= i < n :: tokens[..n][i] == tokens[i];
    }
  }

  // ---------- value by value ----------

  /** What one value has become after these replacements. */
  ghost function NowV(m: Rec2Vid, v: Value, tokens: seq<Value>): Value {
    if |tokens| == 0 then v
    else
      var n := |tokens| - 1;
      var u := NowV(m, v, tokens[..n]);
      if u == tokens[n] && u in m then m[u] else u
  }

  ghost function NowF(m: Rec2Vid, f: Fields, tokens: seq<Value>): Fields {
    match f
    case NoFields => NoFields
    case Field(n, v, rest) => Field(n, if v.Dict? then Dict(NowF(m, v.fields, tokens)) else NowV(m, v, tokens), NowF(m, rest, tokens))
  }

  lemma {:induction false} NowNothing(m: Rec2Vid, f: Fields)
    ensures NowF(m, f, []) == f
  {
    match f
    case NoFields =>
    case Field(_, v, rest) =>
      NowNothing(m, rest);
      if v.Dict? { NowNothing(m, v.fields); }
  }

  lemma {:induction false} NowFlat(m: Rec2Vid, v: Value, tokens: seq<Value>)
    requires Flat(m) && !v.Dict?
    ensures !NowV(m, v, tokens).Dict?
  {
    if |tokens| > 0 { NowFlat(m, v, tokens[..|tokens| - 1]); }
  }

  lemma {:induction false} NowFNext(m: Rec2Vid, f: Fields, tokens: seq<Value>, n: nat)
    requires Flat(m) && |tokens| == n + 1 && tokens[n] in m
    ensures Replaced(NowF(m, f, tokens[..n]), tokens[n], m[tokens[n]]) == NowF(m, f, tokens)
  {
    match f
    case NoFields =>
    case Field(_, v, rest) =>
      NowFNext(m, rest, tokens, n);
      if v.Dict? { NowFNext(m, v.fields, tokens, n); } else { NowFlat(m, v, tokens[..n]); }
  }

  lemma {:induction false} EachValueAlone(m: Rec2Vid, f: Fields, tokens: seq<Value>)
    requires Flat(m) && Tokens(m, tokens)
    ensures ReplaceEach(m, f, tokens) == Some(NowF(m, f, tokens))
  {
    if |tokens| == 0 {
      NowNothing(m, f);
    } else {
      var n := |tokens| - 1;
      assert Tokens(m, tokens[..n]);
      EachValueAlone(m, f, tokens[..n]);
      NowFNext(m, f, tokens, n);
    }
  }

  lemma {:induction false} NowVNext(m: Rec2Vid, v: Value, tokens: seq<Value>, k: nat)
    requires k < |tokens| && tokens[k] in m
    ensures var u := NowV(m, v, tokens[..k]);
      NowV(m, v, tokens[..k + 1]) == if u == tokens[k] then m[u] else u
    ensures v in tokens[..k + 1] <==> v in tokens[..k] || v == tokens[k]
  {
    assert tokens[..k + 1][..k] == tokens[..k] && tokens[..k + 1] == tokens[..k] + [tokens[k]];
  }

  /** As long as there was no chain, every value is what it is meant to be. */
  lemma {:induction false} DoneAsMeant(m: Rec2Vid, v: Value, tokens: seq<Value>, n: nat)
    requires Tokens(m, tokens) && n <= |tokens| && Unchained(m, tokens, n)
    ensures v in tokens[..n] ==> v in m
    ensures NowV(m, v, tokens[..n]) == if v in tokens[..n] then m[v] else v
  {
    if n > 0 {
      var k := n - 1;
      DoneAsMeant(m, v, tokens, k);
      NowVNext(m, v, tokens, k);
      if v in tokens[..k] {
        var i :| 0 <= i < k && tokens[..k][i] == v;
        assert !Chained(m, tokens, i, k);
      }
    }
  }

  lemma {:induction false} SameFromThen(m: Rec2Vid, v: Value, u: Value, tokens: seq<Value>, k: nat)
    requires k <= |tokens| && NowV(m, v, tokens[..k]) == NowV(m, u, tokens[..k])
    ensures NowV(m, v, tokens) == NowV(m, u, tokens)
  {
    if k < |tokens| {
      assert tokens[..|tokens| - 1][..k] == tokens[..k];
      SameFromThen(m, v, u, tokens[..|tokens| - 1], k);
    } else {
      assert tokens[..k] == tokens;
    }
  }

  /** The first chain makes two OIDs the same. */
  lemma {:induction false} FirstChainMerges(m: Rec2Vid, tokens: seq<Value>, i: nat, k: nat)
    requires Tokens(m, tokens) && Chained(m, tokens, i, k) && Unchained(m, tokens, k)
    ensures NowV(m, tokens[i], tokens) == NowV(m, tokens[k], tokens)
  {
    DoneAsMeant(m, tokens[i], tokens, k);
    DoneAsMeant(m, tokens[k], tokens, k);
    assert tokens[..k][i] == tokens[i];
    NowVNext(m, tokens[i], tokens, k);
    NowVNext(m, tokens[k], tokens, k);
    SameFromThen(m, tokens[i], tokens[k], tokens, k + 1);
  }

  lemma FirstChain(m: Rec2Vid, tokens: seq<Value>, n: nat) returns (i: nat, k: nat)
    requires !Unchained(m, tokens, n)
    ensures k < n && Chained(m, tokens, i, k) && Unchained(m, tokens, k)
  {
    if Unchained(m, tokens, n - 1) {
      k := n - 1;
      i :| Chained(m, tokens, i, k);
    } else {
      i, k := FirstChain(m, tokens, n - 1);
    }
  }

  /** A key is what it is meant to be if its values are, and the other way round. */
  lemma {:induction false} RightValueByValue(m: Rec2Vid, f: Fields, tokens: seq<Value>)
    requires forall v | v in OidTokens(f) :: v in tokens
    requires forall v | v in tokens :: HasOid(v) && v in m
    requires forall v | !HasOid(v) :: NowV(m, v, tokens) == v
    ensures NowF(m, f, tokens) == Meant(m, f) <==> forall v | v in OidTokens(f) :: NowV(m, v, tokens) == m[v]
  {
    match f
    case NoFields =>
    case Field(_, v, rest) =>
      RightValueByValue(m, rest, tokens);
      if v.Dict? { RightValueByValue(m, v.fields, tokens); } else if HasOid(v) { assert v in OidTokens(f); }
  }

  lemma {:induction false} OthersStay(m: Rec2Vid, v: Value, tokens: seq<Value>)
    requires !HasOid(v) && forall u | u in tokens :: HasOid(u)
    ensures NowV(m, v, tokens) == v
  {
    if |tokens| > 0 { OthersStay(m, v, tokens[..|tokens| - 1]); }
  }

  /**
    The exact condition: a key whose OIDs are all known comes out as meant exactly when no
    counterpart of one of its OIDs is a later one of its OIDs with another counterpart.
   */
  lemma {:induction false} ExactlyCleanKeys(m: Rec2Vid, f: Fields)
    requires Flat(m)
    ensures RewriteFields(m, f).Some? <==> forall v | v in OidTokens(f) :: v in m
    ensures RewriteFields(m, f).Some? ==> (RewriteFields(m, f).value == Meant(m, f) <==> CleanKey(m, f))
  {
    var tokens := OidTokens(f);
    TokensOfKey(f);
    ReplacesIffKnown(m, f, tokens);
    if RewriteFields(m, f).Some? {
      EachValueAlone(m, f, tokens);
      forall v | !HasOid(v) ensures NowV(m, v, tokens) == v { OthersStay(m, v, tokens); }
      RightValueByValue(m, f, tokens);
      ExactlyUnchained(m, tokens);
    }
  }

  lemma {:induction false} ExactlyUnchained(m: Rec2Vid, tokens: seq<Value>)
    requires Tokens(m, tokens)
    ensures (forall v | v in tokens :: NowV(m, v, tokens) == m[v]) <==> Unchained(m, tokens, |tokens|)
  {
    if Unchained(m, tokens, |tokens|) {
      forall v | v in tokens ensures NowV(m, v, tokens) == m[v] {
        DoneAsMeant(m, v, tokens, |tokens|);
        assert tokens[..|tokens|] == tokens;
      }
    } else {
      var i, k := FirstChain(m, tokens, |tokens|);
      FirstChainMerges(m, tokens, i, k);
    }
  }
}
