/**
  OIDs inside the JSON text of an entry key: the code cuts the text at its quotes, and replaces
  one OID after the other everywhere in the text.
 */
module EntryKey {
  import opened Text
  import opened Wrappers

  const QUOTE := '\"'
  const MARK := "oid:"

  predicate IsOid(token: string) {
    Contains(token, MARK)
  }

  /** The quoted or unquoted tokens that are OIDs, in order, repeats included. */
  function Oids(tokens: seq<string>): seq<string> {
    if |tokens| == 0 then []
    else Oids(tokens[..|tokens| - 1]) + if IsOid(tokens[|tokens| - 1]) then [tokens[|tokens| - 1]] else []
  }

  /** One replacement after the other; None if an OID is unknown. */
  function ReplaceEach(key: string, oids: seq<string>, m: map<string, string>): Option<string> {
    if |oids| == 0 then Some(key)
    else
      var n := |oids| - 1;
      match ReplaceEach(key, oids[..n], m) case None => None case Some(k) =>
      if oids[n] in m && |oids[n]| > 0 then Some(Replace(k, oids[n], m[oids[n]])) else None
  }

  /** What the code does to a key. */
  function UpdateEntryKey(key: string, m: map<string, string>): Option<string> {
    ReplaceEach(key, Oids(Split(key, QUOTE)), m)
  }

  /** What is meant: every OID token replaced once, all at the same time. */
  function Image(token: string, m: map<string, string>): string {
    if IsOid(token) && token in m then m[token] else token
  }

  function Images(tokens: seq<string>, m: map<string, string>): (r: seq<string>)
    ensures |r| == |tokens|
  {
    seq(|tokens|, i requires 0 <= i < |tokens| => Image(tokens[i], m))
  }

  function Simultaneous(key: string, m: map<string, string>): string {
    Join(Images(Split(key, QUOTE), m), [QUOTE])
  }

  /** The loop of the code. */
  method UpdateKey(key: string, m: map<string, string>) returns (r: Option<string>)
    ensures r == UpdateEntryKey(key, m)
  {
    var tokens := Split(key, QUOTE);
    var oids: seq<string> := [];
    for i := 0 to |tokens|
      invariant oids == Oids(tokens[..i])
    {
      assert tokens[..i + 1][..i] == tokens[..i];
      if IsOid(tokens[i]) { oids := oids + [tokens[i]]; }
    }
    assert tokens[..|tokens|] == tokens;
    var newKey := key;
    for i := 0 to |oids|
      invariant ReplaceEach(key, oids[..i], m) == Some(newKey)
    {
      assert oids[..i + 1][..i] == oids[..i];
      OidNotEmpty(tokens, i);
      if oids[i] !in m {
        ReplaceStops(key, oids, i + 1, m);
        return None;
      }
      newKey := Replace(newKey, oids[i], m[oids[i]]);
    }
    assert oids[..|oids|] == oids;
    return Some(newKey);
  }

  lemma {:induction false} ReplaceStops(key: string, oids: seq<string>, n: nat, m: map<string, string>)
    requires n <= |oids| && ReplaceEach(key, oids[..n], m).None?
    ensures ReplaceEach(key, oids, m).None?
  {
    if n < |oids| {
      assert oids[..|oids| - 1][..n] == oids[..n];
      ReplaceStops(key, oids[..|oids| - 1], n, m);
    } else {
      assert oids[..n] == oids;
    }
  }

  lemma {:induction false} OidNotEmpty(tokens: seq<string>, i: nat)
    requires i < |Oids(tokens)|
    ensures |Oids(tokens)[i]| > 0 && IsOid(Oids(tokens)[i]) && Oids(tokens)[i] in tokens
  {
    var n := |tokens| - 1;
    if i < |Oids(tokens[..n])| { OidNotEmpty(tokens[..n], i); }
  }

  lemma {:induction false} EveryOid(tokens: seq<string>, t: string)
    requires t in tokens && IsOid(t)
    ensures t in Oids(tokens)
  {
    var n := |tokens| - 1;
    if t != tokens[n] {
      assert t in tokens[..n];
      EveryOid(tokens[..n], t);
    }
  }

  lemma {:induction false} OidsConcat(a: seq<string>, b: seq<string>)
    ensures Oids(a + b) == Oids(a) + Oids(b)
  {
    if |b| == 0 {
      assert a + b == a;
    } else {
      OidsConcat(a, b[..|b| - 1]);
      assert (a + b)[..|a + b| - 1] == a + b[..|b| - 1];
    }
  }

  lemma OidsOfOne(t: string)
    ensures Oids([t]) == if IsOid(t) then [t] else []
  {
    assert [t][..0] == [];
  }

  lemma {:induction false} OidsOfThree(a: seq<string>, b: seq<string>, c: seq<string>)
    ensures Oids(a + b + c) == Oids(a) + Oids(b) + Oids(c)
  {
    OidsConcat(a, b);
    OidsConcat(a + b, c);
  }

  // ---------- token by token ----------

  /** What one token has become after these replacements. */
  function Now(t: string, oids: seq<string>, m: map<string, string>): string
    requires Usable(oids, m)
  {
    if |oids| == 0 then t
    else
      var n := |oids| - 1;
      Replace(Now(t, oids[..n], m), oids[n], m[oids[n]])
  }

  predicate Usable(oids: seq<string>, m: map<string, string>) {
    forall i | 0 <= i < |oids| :: |oids[i]| > 0 && oids[i] in m
  }

  function AllNow(tokens: seq<string>, oids: seq<string>, m: map<string, string>): (r: seq<string>)
    requires Usable(oids, m)
    ensures |r| == |tokens|
  {
    seq(|tokens|, i requires 0 <= i < |tokens| => Now(tokens[i], oids, m))
  }

  function ReplaceAll(tokens: seq<string>, x: string, v: string): (r: seq<string>)
    requires |x| > 0
    ensures |r| == |tokens|
  {
    seq(|tokens|, i requires 0 <= i < |tokens| => Replace(tokens[i], x, v))
  }

  lemma {:induction false} ReplaceInJoin(tokens: seq<string>, x: string, v: string)
    requires |tokens| > 0 && |x| > 0 && Free(x, QUOTE)
    ensures Replace(Join(tokens, [QUOTE]), x, v) == Join(ReplaceAll(tokens, x, v), [QUOTE])
  {
    if |tokens| > 1 {
      var rest := Join(tokens[1..], [QUOTE]);
      ReplaceInJoin(tokens[1..], x, v);
      ReplaceAcross(tokens[0], QUOTE, rest, x, v);
      assert tokens[0] + [QUOTE] + rest == tokens[0] + ([QUOTE] + rest);
      assert ReplaceAll(tokens, x, v)[1..] == ReplaceAll(tokens[1..], x, v);
    }
  }

  lemma {:induction false} EachTokenAlone(tokens: seq<string>, oids: seq<string>, m: map<string, string>)
    requires |tokens| > 0 && Usable(oids, m) && forall i | 0 <= i < |oids| :: Free(oids[i], QUOTE)
    ensures ReplaceEach(Join(tokens, [QUOTE]), oids, m) == Some(Join(AllNow(tokens, oids, m), [QUOTE]))
  {
    if |oids| > 0 {
      var n := |oids| - 1;
      EachTokenAlone(tokens, oids[..n], m);
      ReplaceInJoin(AllNow(tokens, oids[..n], m), oids[n], m[oids[n]]);
      assert ReplaceAll(AllNow(tokens, oids[..n], m), oids[n], m[oids[n]]) == AllNow(tokens, oids, m);
    } else {
      assert AllNow(tokens, oids, m) == tokens;
    }
  }

  lemma {:induction false} OidsFree(key: string)
    ensures forall i | 0 <= i < |Oids(Split(key, QUOTE))| :: Free(Oids(Split(key, QUOTE))[i], QUOTE)
  {
    SplitPiecesFree(key, QUOTE);
    forall i | 0 <= i < |Oids(Split(key, QUOTE))| ensures Free(Oids(Split(key, QUOTE))[i], QUOTE) { OidNotEmpty(Split(key, QUOTE), i); }
  }

  predicate AllIn(oids: seq<string>, m: map<string, string>) {
    forall i | 0 <= i < |oids| :: oids[i] in m
  }

  /** The update raises exactly when some OID of the key is unknown. */
  lemma {:induction false} RaisesIffUnknown(key: string, m: map<string, string>)
    ensures UpdateEntryKey(key, m).Some? <==> AllIn(Oids(Split(key, QUOTE)), m)
  {
    var tokens := Split(key, QUOTE);
    forall i | 0 <= i < |Oids(tokens)| ensures |Oids(tokens)[i]| > 0 { OidNotEmpty(tokens, i); }
    KnownIffReplaced(key, Oids(tokens), m);
  }

  lemma {:induction false} KnownIffReplaced(key: string, oids: seq<string>, m: map<string, string>)
    requires forall i | 0 <= i < |oids| :: |oids[i]| > 0
    ensures ReplaceEach(key, oids, m).Some? <==> AllIn(oids, m)
  {
    if |oids| > 0 {
      var n := |oids| - 1;
      KnownIffReplaced(key, oids[..n], m);
      assert forall i | 0 <= i < n :: oids[..n][i] == oids[i];
    }
  }

  // ---------- one after the other is all at once ----------

  /** What is meant to become of a token by these replacements. */
  function Meant(t: string, oids: seq<string>, m: map<string, string>): string
    requires Usable(oids, m)
  {
    if t in oids then m[t] else t
  }

  lemma UsablePrefix(oids: seq<string>, m: map<string, string>, k: nat)
    requires Usable(oids, m) && k <= |oids|
    ensures Usable(oids[..k], m)
  {
    assert forall i | 0 <= i < k :: oids[..k][i] == oids[i];
  }

  /** The k-th replacement leaves the token alone unless it is the first one for this token. */
  predicate Harmless(t: string, oids: seq<string>, m: map<string, string>, k: nat)
    requires Usable(oids, m) && k < |oids|
  {
    UsablePrefix(oids, m, k);
    || m[oids[k]] == oids[k]
    || (t == oids[k] && t !in oids[..k])
    || !Contains(Meant(t, oids[..k], m), oids[k])
  }

  ghost predicate Undisturbed(tokens: seq<string>, oids: seq<string>, m: map<string, string>, n: nat)
    requires Usable(oids, m) && n <= |oids|
  {
    forall t, k | t in tokens && 0 <= k < n :: Harmless(t, oids, m, k)
  }

  lemma {:induction false} NowNext(t: string, oids: seq<string>, m: map<string, string>, k: nat)
    requires Usable(oids, m) && k < |oids|
    ensures Usable(oids[..k], m) && Usable(oids[..k + 1], m)
    ensures Now(t, oids[..k + 1], m) == Replace(Now(t, oids[..k], m), oids[k], m[oids[k]])
    ensures t in oids[..k + 1] <==> t in oids[..k] || t == oids[k]
  {
    UsablePrefix(oids, m, k);
    UsablePrefix(oids, m, k + 1);
    assert oids[..k + 1][..k] == oids[..k] && oids[..k + 1] == oids[..k] + [oids[k]];
  }

  lemma {:induction false} DoneAsMeant(tokens: seq<string>, t: string, oids: seq<string>, m: map<string, string>, n: nat)
    requires t in tokens && Usable(oids, m) && n <= |oids| && Undisturbed(tokens, oids, m, n)
    ensures Usable(oids[..n], m) && Now(t, oids[..n], m) == Meant(t, oids[..n], m)
  {
    UsablePrefix(oids, m, n);
    if n > 0 {
      var k := n - 1;
      DoneAsMeant(tokens, t, oids, m, k);
      NowNext(t, oids, m, k);
      var cur, o, v := Now(t, oids[..k], m), oids[k], m[oids[k]];
      assert Harmless(t, oids, m, k);
      if v == o { ReplaceBySelf(cur, o); } else if t == o && t !in oids[..k] { ReplaceWhole(o, v); } else { ReplaceNone(cur, o, v); }
    }
  }

  /**
    Replacing one OID after the other replaces all of them at once, whenever each replacement of
    an OID that changes finds it neither in another token nor in the new value of an OID before it.
   */
  lemma {:induction false} SequentialIsSimultaneous(key: string, m: map<string, string>)
    requires var tokens := Split(key, QUOTE); Usable(Oids(tokens), m) && Undisturbed(tokens, Oids(tokens), m, |Oids(tokens)|)
    ensures UpdateEntryKey(key, m) == Some(Simultaneous(key, m))
  {
    var tokens := Split(key, QUOTE);
    var oids := Oids(tokens);
    JoinSplit(key, QUOTE);
    OidsFree(key);
    EachTokenAlone(tokens, oids, m);
    forall i | 0 <= i < |tokens| ensures Now(tokens[i], oids, m) == Image(tokens[i], m) { ComesOutRight(tokens, tokens[i], m); }
    assert AllNow(tokens, oids, m) == Images(tokens, m);
  }

  lemma {:induction false} ComesOutRight(tokens: seq<string>, t: string, m: map<string, string>)
    requires t in tokens && Usable(Oids(tokens), m) && Undisturbed(tokens, Oids(tokens), m, |Oids(tokens)|)
    ensures Now(t, Oids(tokens), m) == Image(t, m)
  {
    var oids := Oids(tokens);
    DoneAsMeant(tokens, t, oids, m, |oids|);
    assert oids[..|oids|] == oids;
    OnlyOids(tokens);
    if IsOid(t) { EveryOid(tokens, t); }
  }

  lemma {:induction false} OnlyOids(tokens: seq<string>)
    ensures forall t | t in Oids(tokens) :: IsOid(t) && t in tokens
  {
    forall t | t in Oids(tokens) ensures IsOid(t) && t in tokens {
      var i :| 0 <= i < |Oids(tokens)| && Oids(tokens)[i] == t;
      OidNotEmpty(tokens, i);
    }
  }

  // ---------- when it goes wrong ----------

  /** The new values hold no quote, so that they stay tokens. */
  predicate Quoteless(oids: seq<string>, m: map<string, string>)
    requires Usable(oids, m)
  {
    forall i | 0 <= i < |oids| :: Free(m[oids[i]], QUOTE)
  }

  lemma {:induction false} ReplaceKeepsFree(s: string, x: string, v: string, c: char)
    requires |x| > 0 && Free(s, c) && Free(v, c)
    ensures Free(Replace(s, x, v), c)
  {
    if |s| >= |x| {
      if s[..|x|] == x { ReplaceKeepsFree(s[|x|..], x, v, c); } else { ReplaceKeepsFree(s[1..], x, v, c); }
    }
  }

  lemma {:induction false} NowFree(t: string, oids: seq<string>, m: map<string, string>)
    requires Usable(oids, m) && Free(t, QUOTE) && Quoteless(oids, m)
    ensures Free(Now(t, oids, m), QUOTE)
  {
    if |oids| > 0 {
      var n := |oids| - 1;
      assert forall i | 0 <= i < n :: oids[..n][i] == oids[i];
      NowFree(t, oids[..n], m);
      ReplaceKeepsFree(Now(t, oids[..n], m), oids[n], m[oids[n]], QUOTE);
    }
  }

  lemma {:induction false} SameTokens(ts: seq<string>, us: seq<string>)
    requires |ts| > 0 && |us| > 0 && Join(ts, [QUOTE]) == Join(us, [QUOTE])
    requires (forall i | 0 <= i < |ts| :: Free(ts[i], QUOTE)) && (forall i | 0 <= i < |us| :: Free(us[i], QUOTE))
    ensures ts == us
  {
    SplitJoin(ts, QUOTE);
    SplitJoin(us, QUOTE);
  }

  /** If the key comes out as meant, so does each of its tokens. */
  lemma {:induction false} RightTokenByToken(key: string, m: map<string, string>, t: string)
    requires t in Split(key, QUOTE) && Usable(Oids(Split(key, QUOTE)), m) && Quoteless(Oids(Split(key, QUOTE)), m)
    requires UpdateEntryKey(key, m) == Some(Simultaneous(key, m))
    ensures Now(t, Oids(Split(key, QUOTE)), m) == Image(t, m)
  {
    var tokens := Split(key, QUOTE);
    var oids := Oids(tokens);
    JoinSplit(key, QUOTE);
    OidsFree(key);
    EachTokenAlone(tokens, oids, m);
    SplitPiecesFree(key, QUOTE);
    var now, images := AllNow(tokens, oids, m), Images(tokens, m);
    forall k | 0 <= k < |tokens| ensures Free(now[k], QUOTE) && Free(images[k], QUOTE) {
      NowFree(tokens[k], oids, m);
      if IsOid(tokens[k]) { EveryOid(tokens, tokens[k]); }
    }
    SameTokens(now, images);
    var i :| 0 <= i < |tokens| && tokens[i] == t;
    assert now[i] == images[i];
  }

  /** What has become the same stays the same. */
  lemma {:induction false} SameFromThen(t: string, u: string, oids: seq<string>, m: map<string, string>, k: nat)
    requires Usable(oids, m) && k <= |oids| && Usable(oids[..k], m) && Now(t, oids[..k], m) == Now(u, oids[..k], m)
    ensures Now(t, oids, m) == Now(u, oids, m)
  {
    if k < |oids| {
      var n := |oids| - 1;
      assert forall i | 0 <= i < n :: oids[..n][i] == oids[i];
      assert oids[..n][..k] == oids[..k];
      SameFromThen(t, u, oids[..n], m, k);
    } else {
      assert oids[..k] == oids;
    }
  }

  /** The new value of an OID is a later OID that changes itself. */
  predicate Chained(oids: seq<string>, m: map<string, string>, i: nat, k: nat)
    requires Usable(oids, m)
  {
    i < k < |oids| && m[oids[i]] == oids[k] && m[oids[k]] != oids[k]
  }

  /** The first chain makes two OIDs the same that are meant to be different. */
  lemma {:induction false} FirstChainMerges(tokens: seq<string>, oids: seq<string>, m: map<string, string>, i: nat, k: nat)
    requires Usable(oids, m) && Chained(oids, m, i, k) && oids[i] in tokens && oids[k] in tokens
    requires Undisturbed(tokens, oids, m, k) && !Contains(m[oids[k]], oids[k])
    ensures Now(oids[i], oids, m) == Now(oids[k], oids, m)
  {
    var a, o := oids[i], oids[k];
    DoneAsMeant(tokens, a, oids, m, k);
    DoneAsMeant(tokens, o, oids, m, k);
    assert oids[..k][i] == a;
    NowNext(a, oids, m, k);
    NowNext(o, oids, m, k);
    ReplaceWhole(o, m[o]);
    if o in oids[..k] { ReplaceNone(m[o], o, m[o]); }
    SameFromThen(a, o, oids, m, k + 1);
  }

  /** No text among the OIDs and their new values is a proper part of another. */
  predicate Solid(oids: seq<string>, m: map<string, string>)
    requires Usable(oids, m)
  {
    forall i, j | 0 <= i < |oids| && 0 <= j < |oids| ::
      && (oids[i] != oids[j] ==> !Contains(oids[i], oids[j]))
      && (m[oids[i]] != oids[j] ==> !Contains(m[oids[i]], oids[j]))
  }

  /** The first replacement that disturbs a token. */
  lemma FirstDisturbed(tokens: seq<string>, oids: seq<string>, m: map<string, string>, n: nat) returns (t: string, k: nat)
    requires Usable(oids, m) && n <= |oids| && !Undisturbed(tokens, oids, m, n)
    ensures k < n && t in tokens && Undisturbed(tokens, oids, m, k) && !Harmless(t, oids, m, k)
  {
    if Undisturbed(tokens, oids, m, n - 1) {
      k := n - 1;
      t :| t in tokens && !Harmless(t, oids, m, k);
    } else {
      t, k := FirstDisturbed(tokens, oids, m, n - 1);
    }
  }

  lemma ChainDisturbs(tokens: seq<string>, oids: seq<string>, m: map<string, string>, i: nat, k: nat)
    requires Usable(oids, m) && Chained(oids, m, i, k) && oids[i] in tokens
    ensures !Undisturbed(tokens, oids, m, |oids|)
  {
    UsablePrefix(oids, m, k);
    assert oids[..k][i] == oids[i];
    ContainsSelf(oids[k]);
    assert !Harmless(oids[i], oids, m, k);
  }

  /** Where texts are solid, only a chain can disturb a token. */
  lemma OnlyChainsDisturb(tokens: seq<string>, oids: seq<string>, m: map<string, string>, t: string, k: nat) returns (i: nat)
    requires oids == Oids(tokens) && Usable(oids, m) && Solid(oids, m) && k < |oids| && t in tokens && !Harmless(t, oids, m, k)
    ensures Chained(oids, m, i, k)
  {
    UsablePrefix(oids, m, k);
    if t in oids[..k] {
      i :| 0 <= i < k && oids[..k][i] == t;
    } else {
      OidNotEmpty(tokens, k);
      ContainsTrans(t, oids[k], MARK);
      EveryOid(tokens, t);
      assert false;
    }
  }

  /**
    If no OID of the key is a proper part of another or of a new value: replacing one after the
    other replaces all of them at once exactly when no new value is a later OID that changes itself.
   */
  lemma {:induction false} ExactlyWhenNoChain(key: string, m: map<string, string>)
    requires var oids := Oids(Split(key, QUOTE)); Usable(oids, m) && Quoteless(oids, m) && Solid(oids, m)
    ensures var oids := Oids(Split(key, QUOTE));
      UpdateEntryKey(key, m) == Some(Simultaneous(key, m)) <==> !exists i, k :: Chained(oids, m, i, k)
  {
    var tokens := Split(key, QUOTE);
    var oids := Oids(tokens);
    OnlyOids(tokens);
    if Undisturbed(tokens, oids, m, |oids|) {
      SequentialIsSimultaneous(key, m);
      if i, k :| Chained(oids, m, i, k) { ChainDisturbs(tokens, oids, m, i, k); }
    } else {
      var t, k := FirstDisturbed(tokens, oids, m, |oids|);
      var i := OnlyChainsDisturb(tokens, oids, m, t, k);
      FirstChainMerges(tokens, oids, m, i, k);
      if UpdateEntryKey(key, m) == Some(Simultaneous(key, m)) {
        RightTokenByToken(key, m, oids[i]);
        RightTokenByToken(key, m, oids[k]);
      }
    }
  }

  // ---------- OIDs that are parts of others ----------

  /** "oid:" and then neither a colon nor a quote. */
  predicate OidText(s: string) {
    |s| >= |MARK| && s[..|MARK|] == MARK && Free(s[|MARK|..], ':') && Free(s, QUOTE)
  }

  lemma OneColon(s: string)
    requires OidText(s)
    ensures forall j | 0 <= j < |s| && s[j] == ':' :: j == |MARK| - 1
  {
    assert MARK[0] != ':' && MARK[1] != ':' && MARK[2] != ':';
    assert forall j | 0 <= j < |MARK| :: s[j] == MARK[j];
    assert forall j | |MARK| <= j < |s| :: s[j] == s[|MARK|..][j - |MARK|];
  }

  /** One OID text is found in another only at its front. */
  lemma FoundInFront(s: string, x: string)
    requires OidText(s) && OidText(x) && Contains(s, x)
    ensures StartsWith(s, x)
  {
    var i :| 0 <= i <= |s| && HasAt(s, i, x);
    OneColon(s);
    assert s[i + 3] == s[i..i + |x|][3] == x[3] == x[..|MARK|][3];
    assert s[0..|x|] == s[..|x|];
  }

  lemma InFrontIsFound(s: string, x: string)
    requires StartsWith(s, x)
    ensures Contains(s, x)
  {
    assert s[0..|x|] == s[..|x|];
    assert HasAt(s, 0, x);
  }

  /** The new values are OID texts, and none is a proper part of an OID or of another one, or has one as a proper part. */
  predicate Separate(oids: seq<string>, m: map<string, string>)
    requires Usable(oids, m)
  {
    && (forall i | 0 <= i < |oids| :: OidText(oids[i]) && OidText(m[oids[i]]))
    && (forall i, j | 0 <= i < |oids| && 0 <= j < |oids| :: Unrelated(m[oids[i]], oids[j]) && Unrelated(m[oids[i]], m[oids[j]]))
  }

  predicate Unrelated(x: string, y: string) {
    x != y ==> !Contains(x, y) && !Contains(y, x)
  }

  /** The k-th OID, which changes, is a proper part of the j-th, which has not been replaced before it. */
  predicate Clashing(oids: seq<string>, m: map<string, string>, k: nat, j: nat)
    requires Usable(oids, m)
  {
    k < j < |oids| && m[oids[k]] != oids[k] && oids[j] != oids[k] && Contains(oids[j], oids[k]) && oids[j] !in oids[..k]
  }

  lemma {:induction false} ReplaceInLonger(w: string, rest: string, o: string, v: string)
    requires OidText(w) && OidText(o) && Unrelated(w, o) && Free(rest, ':') && Free(rest, QUOTE)
    ensures Replace(w + rest, o, v) == (if w == o then v else w) + rest
  {
    var s := w + rest;
    LongerIsText(w, rest);
    if w == o {
      ReplaceHit(o, rest, v);
      NoMark(rest, o);
      ReplaceNone(rest, o, v);
    } else if Contains(s, o) {
      FoundInFront(s, o);
      if |o| <= |w| {
        assert w[..|o|] == s[..|o|];
        InFrontIsFound(w, o);
      } else {
        assert o[..|w|] == s[..|w|] == w;
        InFrontIsFound(o, w);
      }
    } else {
      ReplaceNone(s, o, v);
    }
  }

  lemma LongerIsText(w: string, rest: string)
    requires OidText(w) && Free(rest, ':') && Free(rest, QUOTE)
    ensures OidText(w + rest)
  {
    assert (w + rest)[..|MARK|] == w[..|MARK|] && (w + rest)[|MARK|..] == w[|MARK|..] + rest;
  }

  lemma NoMark(rest: string, o: string)
    requires OidText(o) && Free(rest, ':')
    ensures !Contains(rest, o)
  {
    assert o[3] == o[..|MARK|][3] == ':';
    forall i | 0 <= i <= |rest| ensures !HasAt(rest, i, o) {
      if i + |o| <= |rest| { assert rest[i..i + |o|][3] == rest[i + 3]; }
    }
  }

  /** The longer OID is cut up, and what it becomes is no new value. */
  lemma {:induction false} ClashBreaks(tokens: seq<string>, oids: seq<string>, m: map<string, string>, k: nat, j: nat)
    requires Usable(oids, m) && Separate(oids, m) && Clashing(oids, m, k, j) && oids[j] in tokens && Undisturbed(tokens, oids, m, k)
    ensures Now(oids[j], oids, m) != m[oids[j]]
  {
    var t, o := oids[j], oids[k];
    DoneAsMeant(tokens, t, oids, m, k);
    NowNext(t, oids, m, k);
    FoundInFront(t, o);
    var rest := t[|o|..];
    assert t == o + rest && |rest| > 0;
    assert forall i | 0 <= i < |rest| :: rest[i] == t[|MARK|..][|o| - |MARK| + i];
    ReplaceInLonger(o, rest, o, m[o]);
    var post := oids[k + 1..];
    NowSplit(t, oids, m, k + 1);
    assert post[j - k - 1] == oids[j];
    var i := FromReplaced(oids, m, k, rest);
    InFrontIsFound(m[oids[i]] + rest, m[oids[i]]);
    assert Unrelated(m[oids[i]], m[oids[j]]);
  }

  /** A text that starts with a new value and goes on stays one. */
  lemma FromReplaced(oids: seq<string>, m: map<string, string>, k: nat, rest: string) returns (i: nat)
    requires Usable(oids, m) && Separate(oids, m) && k < |oids| && |rest| > 0 && Free(rest, ':') && Free(rest, QUOTE)
    ensures Usable(oids[k + 1..], m) && i < |oids| && Now(m[oids[k]] + rest, oids[k + 1..], m) == m[oids[i]] + rest
  {
    i := FromReplacedUntil(oids, m, k, |oids|, rest);
    assert oids[k + 1..|oids|] == oids[k + 1..];
  }

  lemma {:induction false} FromReplacedUntil(oids: seq<string>, m: map<string, string>, k: nat, n: nat, rest: string) returns (i: nat)
    requires Usable(oids, m) && Separate(oids, m) && k < n <= |oids| && |rest| > 0 && Free(rest, ':') && Free(rest, QUOTE)
    ensures Usable(oids[k + 1..n], m) && i < |oids| && Now(m[oids[k]] + rest, oids[k + 1..n], m) == m[oids[i]] + rest
  {
    var part := oids[k + 1..n];
    assert forall j | 0 <= j < |part| :: part[j] == oids[k + 1 + j];
    if n == k + 1 {
      i := k;
    } else {
      i := FromReplacedUntil(oids, m, k, n - 1, rest);
      assert oids[k + 1..n][..n - k - 2] == oids[k + 1..n - 1] && oids[k + 1..n][n - k - 2] == oids[n - 1];
      assert Unrelated(m[oids[i]], oids[n - 1]);
      ReplaceInLonger(m[oids[i]], rest, oids[n - 1], m[oids[n - 1]]);
      if m[oids[i]] == oids[n - 1] { i := n - 1; }
    }
  }

  lemma {:induction false} NowSplit(t: string, oids: seq<string>, m: map<string, string>, k: nat)
    requires Usable(oids, m) && k <= |oids|
    ensures Usable(oids[..k], m) && Usable(oids[k..], m) && Now(t, oids, m) == Now(Now(t, oids[..k], m), oids[k..], m)
  {
    UsablePrefix(oids, m, k);
    if k < |oids| {
      var n := |oids| - 1;
      UsablePrefix(oids, m, n);
      NowSplit(t, oids[..n], m, k);
      assert oids[..n][..k] == oids[..k] && oids[..n][k..] == oids[k..][..n - k];
    } else {
      assert oids[..k] == oids && oids[k..] == [];
    }
  }

  lemma FoundLater(oids: seq<string>, t: string, k: nat) returns (j: nat)
    requires k <= |oids| && t in oids && t !in oids[..k]
    ensures k <= j < |oids| && oids[j] == t
  {
    assert oids == oids[..k] + oids[k..];
    var i :| 0 <= i < |oids[k..]| && oids[k..][i] == t;
    j := k + i;
  }

  lemma OnlyThoseDisturb(tokens: seq<string>, oids: seq<string>, m: map<string, string>, t: string, k: nat) returns (j: nat)
    requires oids == Oids(tokens) && Usable(oids, m) && Separate(oids, m) && k < |oids| && t in tokens && !Harmless(t, oids, m, k)
    ensures j < |oids| && t == oids[j] && if t in oids[..k] then Chained(oids, m, j, k) else Clashing(oids, m, k, j)
  {
    UsablePrefix(oids, m, k);
    if t in oids[..k] {
      j :| 0 <= j < k && oids[..k][j] == t;
      assert Unrelated(m[oids[j]], oids[k]);
    } else {
      OidNotEmpty(tokens, k);
      ContainsTrans(t, oids[k], MARK);
      EveryOid(tokens, t);
      j := FoundLater(oids, t, k);
    }
  }

  lemma ClashDisturbs(tokens: seq<string>, oids: seq<string>, m: map<string, string>, k: nat, j: nat)
    requires Usable(oids, m) && Clashing(oids, m, k, j) && oids[j] in tokens
    ensures !Undisturbed(tokens, oids, m, |oids|)
  {
    UsablePrefix(oids, m, k);
    assert !Harmless(oids[j], oids, m, k);
  }

  /**
    The exact condition for OIDs that may be parts of one another: replacing one after the other
    replaces all of them at once exactly when no new value is a later OID that changes itself, and
    no OID that changes is the front of another one that has not been replaced before it.
   */
  lemma {:induction false} ExactlyWhenNeither(key: string, m: map<string, string>)
    requires var oids := Oids(Split(key, QUOTE)); Usable(oids, m) && Separate(oids, m)
    ensures var oids := Oids(Split(key, QUOTE));
      UpdateEntryKey(key, m) == Some(Simultaneous(key, m)) <==>
        (!exists i, k :: Chained(oids, m, i, k)) && !exists k, j :: Clashing(oids, m, k, j)
  {
    var tokens := Split(key, QUOTE);
    var oids := Oids(tokens);
    OnlyOids(tokens);
    if Undisturbed(tokens, oids, m, |oids|) {
      SequentialIsSimultaneous(key, m);
      if i, k :| Chained(oids, m, i, k) { ChainDisturbs(tokens, oids, m, i, k); }
      if k, j :| Clashing(oids, m, k, j) { ClashDisturbs(tokens, oids, m, k, j); }
    } else {
      var t, k := FirstDisturbed(tokens, oids, m, |oids|);
      var j := OnlyThoseDisturb(tokens, oids, m, t, k);
      DisturbedComesOutWrong(tokens, oids, m, k, j);
      if UpdateEntryKey(key, m) == Some(Simultaneous(key, m)) {
        RightTokenByToken(key, m, oids[j]);
        RightTokenByToken(key, m, oids[k]);
      }
    }
  }

  lemma {:induction false} DisturbedComesOutWrong(tokens: seq<string>, oids: seq<string>, m: map<string, string>, k: nat, j: nat)
    requires Usable(oids, m) && Separate(oids, m) && k < |oids| && j < |oids| && oids[j] in tokens && oids[k] in tokens
    requires Undisturbed(tokens, oids, m, k) && (Chained(oids, m, j, k) || Clashing(oids, m, k, j))
    ensures Now(oids[j], oids, m) != m[oids[j]] || Now(oids[k], oids, m) != m[oids[k]]
  {
    if Chained(oids, m, j, k) {
      assert Unrelated(m[oids[k]], oids[k]);
      FirstChainMerges(tokens, oids, m, j, k);
    } else {
      ClashBreaks(tokens, oids, m, k, j);
    }
  }

  // ---------- two keys for which it goes wrong ----------

  // The type of the entry is made up: an entry whose key names two objects beside the switch.

  const HEAD := ["SAI_OBJECT_TYPE_PAIR_ENTRY:{", "a", ":"]
  const MIDDLE := [",", "b", ":"]
  const TAIL := ["}"]

  /** The text TYPE:{"a":"..","b":".."}. */
  function TwoOids(x: string, y: string): string {
    Join(TwoOidTokens(x, y), [QUOTE])
  }

  function TwoOidTokens(x: string, y: string): seq<string> {
    HEAD + [x] + MIDDLE + [y] + TAIL
  }

  lemma OidsOfTwo(x: string, y: string)
    requires OidText(x) && OidText(y)
    ensures Split(TwoOids(x, y), QUOTE) == TwoOidTokens(x, y) && Oids(TwoOidTokens(x, y)) == [x, y] && '{' in TwoOids(x, y)
  {
    NotMarked();
    MarkedOid(x);
    MarkedOid(y);
    OidsOfPlain(HEAD);
    OidsOfPlain(MIDDLE);
    OidsOfPlain(TAIL);
    OidsOfOne(x);
    OidsOfOne(y);
    OidsOfThree(HEAD, [x], MIDDLE);
    OidsOfThree(HEAD + [x] + MIDDLE, [y], TAIL);
    TwoOidText(x, y);
  }

  lemma TwoOidText(x: string, y: string)
    requires Free(x, QUOTE) && Free(y, QUOTE)
    ensures Split(TwoOids(x, y), QUOTE) == TwoOidTokens(x, y) && '{' in TwoOids(x, y)
  {
    var t := TwoOidTokens(x, y);
    SplitJoin(t, QUOTE);
    assert t[0] == HEAD[0] && TwoOids(x, y)[27] == HEAD[0][27] == '{';
  }

  lemma MarkedOid(x: string)
    requires OidText(x)
    ensures IsOid(x)
  {
    assert x[0..4] == x[..4];
    assert HasAt(x, 0, MARK);
  }

  lemma {:induction false} OidsOfPlain(b: seq<string>)
    requires forall i | 0 <= i < |b| :: !IsOid(b[i])
    ensures Oids(b) == []
  {
    if |b| > 0 { OidsOfPlain(b[..|b| - 1]); }
  }

  lemma NotMarked()
    ensures (forall i | 0 <= i < |HEAD| :: !IsOid(HEAD[i])) && (forall i | 0 <= i < |MIDDLE| :: !IsOid(MIDDLE[i])) && !IsOid(TAIL[0])
  {
    var s := HEAD[0];
    forall i | 0 <= i <= |s| ensures !HasAt(s, i, MARK) {
      if i + 4 <= |s| { assert s[i..i + 4][0] == s[i]; }
    }
  }

  lemma NeitherInFront(x: string, y: string)
    requires OidText(x) && OidText(y) && !StartsWith(x, y) && !StartsWith(y, x)
    ensures Unrelated(x, y)
  {
    if Contains(x, y) { FoundInFront(x, y); }
    if Contains(y, x) { FoundInFront(y, x); }
  }

  /** VLAN 1 becomes VLAN 2 and VLAN 2 becomes VLAN 3: the code turns both into VLAN 3. */
  lemma ChainExample()
    ensures var a, b, c := "oid:0x26000000000001", "oid:0x26000000000002", "oid:0x26000000000003";
            var key, m := TwoOids(a, b), map[a := b, b := c];
      '{' in key && UpdateEntryKey(key, m).Some? && UpdateEntryKey(key, m) != Some(Simultaneous(key, m))
  {
    var a, b, c := "oid:0x26000000000001", "oid:0x26000000000002", "oid:0x26000000000003";
    var key, m := TwoOids(a, b), map[a := b, b := c];
    OidsOfTwo(a, b);
    assert a[19] == '1' && b[19] == '2' && c[19] == '3';
    NeitherInFront(a, b);
    NeitherInFront(a, c);
    NeitherInFront(b, c);
    assert Chained([a, b], m, 0, 1);
    ExactlyWhenNeither(key, m);
    RaisesIffUnknown(key, m);
  }

  /** PORT 1 reads like the front of an object of type 0x10: the code cuts the latter up. */
  lemma PrefixExample()
    ensures var a, b, v, w := "oid:0x1000000000001", "oid:0x10000000000012", "oid:0x1000000000005", "oid:0x10000000000026";
            var key, m := TwoOids(a, b), map[a := v, b := w];
      '{' in key && UpdateEntryKey(key, m).Some? && UpdateEntryKey(key, m) != Some(Simultaneous(key, m))
  {
    var a, b, v, w := "oid:0x1000000000001", "oid:0x10000000000012", "oid:0x1000000000005", "oid:0x10000000000026";
    assert |a| == 19 == |v| && |b| == 20 == |w|;
    assert a[18] == '1' && b[18] == '1' && v[18] == '5' && w[18] == '2' && b[19] == '2' && w[19] == '6' && a == b[..19];
    NeitherInFront(v, a);
    NeitherInFront(v, b);
    NeitherInFront(v, w);
    NeitherInFront(w, b);
    NeitherInFront(w, a);
    PrefixBreaks(a, b, v, w);
  }

  lemma PrefixBreaks(a: string, b: string, v: string, w: string)
    requires OidText(a) && OidText(b) && OidText(v) && OidText(w) && a != b && StartsWith(b, a) && v != a
    requires Unrelated(v, a) && Unrelated(v, b) && Unrelated(v, w) && Unrelated(w, a) && Unrelated(w, b)
    ensures var key, m := TwoOids(a, b), map[a := v, b := w];
      '{' in key && UpdateEntryKey(key, m).Some? && UpdateEntryKey(key, m) != Some(Simultaneous(key, m))
  {
    var key, m := TwoOids(a, b), map[a := v, b := w];
    OidsOfTwo(a, b);
    InFrontIsFound(b, a);
    assert [a, b][..0] == [];
    assert Clashing([a, b], m, 0, 1);
    ExactlyWhenNeither(key, m);
    RaisesIffUnknown(key, m);
  }
}
