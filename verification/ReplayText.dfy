/** The key update of the replay, on the text a recording shows and the texts rec2vid holds. */
module ReplayText {
  import opened Wrappers
  import opened SaiStore
  import opened Renaming
  import opened ReplaySpec
  import opened ReplaySim
  import Keys = ReplayKeys
  import EntryKey
  import KeyText
  import VidText

  /** The OIDs of the key and their counterparts are among `os`. */
  ghost predicate Covers(os: set<Oid>, b: Ren, f: Fields) {
    forall v | v in OidTokens(f) :: v.Ref? && v.oid in os && (v.oid in b ==> b[v.oid] in os)
  }

  /**
    In the middle of a replay, for virtual ids as they are written: the text the code makes of
    the text of a key is the text of the renamed key if the key is clean, and it raises exactly if
    an OID of the key has not been shown before.
   */
  lemma {:induction false} TextOfKeyIsRenamed(num: ObjType -> nat, os: set<Oid>, m: Rec2Vid, known: set<Value>, b: Ren, ty: ObjType, f: Fields,
                           texts: map<string, string>)
    requires Bij(b) && Agrees(m, known, b) && Covers(os, b, f) && VidText.Usual(num, os)
    requires KeyText.Written(f) && KeyText.PlainText(ty + ":{") && KeyText.Shows(o => VidText.Write(num, o), os, m, texts)
    ensures var show := o => VidText.Write(num, o);
            var r := EntryKey.UpdateEntryKey(KeyText.Print(show, ty, f), texts);
      && (r.Some? <==> FieldsResolvable(known, f))
      && (r.Some? && Keys.CleanKey(m, f) ==> r == Some(KeyText.Print(show, ty, RenF(b, f))))
  {
    var show, tokens := o => VidText.Write(num, o), OidTokens(f);
    VidText.UsualIsLegible(num, os);
    forall i | 0 <= i < |tokens| ensures tokens[i].Ref? && tokens[i].oid in os && (tokens[i] in m ==> m[tokens[i]].Ref? && m[tokens[i]].oid in os) {
      assert tokens[i] in tokens && Names(m, b, tokens[i]);
    }
    AgreesIsFlat(m, known, b);
    KeyText.TextUpdateIsKeyUpdate(show, os, ty, f, m, texts);
    RewriteFieldsIsRenaming(m, known, b, f);
  }
}
