/** Object types and attribute lists of the objects that topologies and ports are made of. */
module Attributes {
  import opened Wrappers
  import opened SaiStore
  import opened Integrity
  import opened BridgePorts
  import opened Numbers

  const RIF := "ROUTER_INTERFACE"
  const VLAN_MEMBER := "VLAN_MEMBER"
  const VLAN := "VLAN"
  const BRIDGE_PORT := "BRIDGE_PORT"
  const LAG_MEMBER := "LAG_MEMBER"
  const LAG := "LAG"

  // ---------- tagging modes ----------

  /** A tagging mode as a caller writes it. */
  type Tag = string

  function LowerChar(c: char): char {
    if 'A' <= c <= 'Z' then (c as int + 32) as char else c
  }

  function Lower(s: string): (r: string)
    ensures |r| == |s|
  {
    seq(|s|, i requires 0 <= i < |s| => LowerChar(s[i]))
  }

  /** The mode a text stands for: its full name, or a short name in letters of any case. */
  function TaggingMode(tag: Tag): Option<Value> {
    if "SAI_VLAN_TAGGING_MODE_" <= tag then Some(Txt(tag))
    else if Lower(tag) == "untagged" then Some(Txt("SAI_VLAN_TAGGING_MODE_UNTAGGED"))
    else if Lower(tag) == "tagged" then Some(Txt("SAI_VLAN_TAGGING_MODE_TAGGED"))
    else None
  }

  /** Each letter is that of one of the two words. */
  predicate Spells(tag: Tag, small: string, capital: string)
    requires |small| == |capital|
  {
    |tag| == |small| && forall i | 0 <= i < |tag| :: tag[i] == small[i] || tag[i] == capital[i]
  }

  /** What the text means to a reader. */
  predicate Means(tag: Tag, mode: Value) {
    || (Spells(tag, "untagged", "UNTAGGED") && mode == Txt("SAI_VLAN_TAGGING_MODE_UNTAGGED"))
    || (Spells(tag, "tagged", "TAGGED") && mode == Txt("SAI_VLAN_TAGGING_MODE_TAGGED"))
    || (|tag| >= 22 && tag[..22] == "SAI_VLAN_TAGGING_MODE_" && mode == Txt(tag))
  }

  /** The text means some mode. */
  predicate IsTag(tag: Tag) {
    Spells(tag, "untagged", "UNTAGGED") || Spells(tag, "tagged", "TAGGED") || (|tag| >= 22 && tag[..22] == "SAI_VLAN_TAGGING_MODE_")
  }

  lemma LowerSpells(tag: Tag, small: string, capital: string)
    requires |small| == |capital| && forall i | 0 <= i < |small| :: 'a' <= small[i] <= 'z' && capital[i] as int + 32 == small[i] as int
    ensures Lower(tag) == small <==> Spells(tag, small, capital)
  {
    if Lower(tag) == small {
      forall i | 0 <= i < |tag| ensures tag[i] == small[i] || tag[i] == capital[i] { assert LowerChar(tag[i]) == small[i]; }
    }
    if Spells(tag, small, capital) {
      forall i | 0 <= i < |tag| ensures Lower(tag)[i] == small[i] { assert tag[i] == small[i] || tag[i] == capital[i]; }
    }
  }

  /** The mode read is the one meant, and a text that means none raises. */
  lemma TaggingModeIsMeant(tag: Tag, mode: Value)
    ensures TaggingMode(tag) == Some(mode) <==> Means(tag, mode)
    ensures TaggingMode(tag).Some? <==> IsTag(tag)
  {
    LowerSpells(tag, "untagged", "UNTAGGED");
    LowerSpells(tag, "tagged", "TAGGED");
    if "SAI_VLAN_TAGGING_MODE_" <= tag { assert tag[0] == 'S' && |tag| >= 22; }
    assert "SAI_VLAN_TAGGING_MODE_" <= tag <==> |tag| >= 22 && tag[..22] == "SAI_VLAN_TAGGING_MODE_";
  }

  lemma UntaggedIsATag()
    ensures IsTag("untagged") && Means("untagged", Txt("SAI_VLAN_TAGGING_MODE_UNTAGGED"))
    ensures IsTag("tagged") && Means("tagged", Txt("SAI_VLAN_TAGGING_MODE_TAGGED"))
  {
  }

  // ---------- attribute lists ----------

  const BP_TYPE := "SAI_BRIDGE_PORT_ATTR_TYPE"
  const BP_PORT := "SAI_BRIDGE_PORT_ATTR_PORT_ID"
  const LM_LAG := "SAI_LAG_MEMBER_ATTR_LAG_ID"
  const LM_PORT := "SAI_LAG_MEMBER_ATTR_PORT_ID"
  const VM_VLAN := "SAI_VLAN_MEMBER_ATTR_VLAN_ID"
  const VM_BP := "SAI_VLAN_MEMBER_ATTR_BRIDGE_PORT_ID"
  const VLAN_ID := "SAI_VLAN_ATTR_VLAN_ID"
  const RIF_VRF := "SAI_ROUTER_INTERFACE_ATTR_VIRTUAL_ROUTER_ID"
  const RIF_TYPE := "SAI_ROUTER_INTERFACE_ATTR_TYPE"
  const RIF_VLAN := "SAI_ROUTER_INTERFACE_ATTR_VLAN_ID"
  const RIF_PORT := "SAI_ROUTER_INTERFACE_ATTR_PORT_ID"
  const VM_TAG := "SAI_VLAN_MEMBER_ATTR_VLAN_TAGGING_MODE"
  const PORT_PVID := "SAI_PORT_ATTR_PORT_VLAN_ID"
  const LAG_PVID := "SAI_LAG_ATTR_PORT_VLAN_ID"
  const RIF_ON_VLAN := "SAI_ROUTER_INTERFACE_TYPE_VLAN"
  const RIF_ON_PORT := "SAI_ROUTER_INTERFACE_TYPE_PORT"

  function BpAttrs(port: Oid): seq<Value> {
    [Txt(BP_TYPE), Txt("SAI_BRIDGE_PORT_TYPE_PORT"), Txt(BP_PORT), Ref(port), Txt(ADMIN_STATE), Txt("true")]
  }

  function LmAttrs(lag: Oid, port: Oid): seq<Value> {
    [Txt(LM_LAG), Ref(lag), Txt(LM_PORT), Ref(port)]
  }

  function VmAttrs(vlan: Oid, bp: Oid, tag: Value): seq<Value> {
    [Txt(VM_VLAN), Ref(vlan), Txt(VM_BP), Ref(bp), Txt(VM_TAG), tag]
  }

  function RifAttrs(vrf: Oid, kind: string, attr: string, on: Oid): seq<Value> {
    [Txt(RIF_VRF), Ref(vrf), Txt(RIF_TYPE), Txt(kind), Txt(attr), Ref(on)]
  }

  lemma AttrNamesDiffer()
    ensures BP_PORT != ADMIN_STATE && LM_LAG != LM_PORT && LM_LAG != ADMIN_STATE && LM_PORT != ADMIN_STATE
    ensures VM_VLAN != VM_BP && VM_VLAN != VM_TAG && VM_BP != VM_TAG
    ensures VM_VLAN != ADMIN_STATE && VM_BP != ADMIN_STATE && VM_TAG != ADMIN_STATE
    ensures RIF_VRF != RIF_TYPE && RIF_VRF != RIF_VLAN && RIF_VRF != RIF_PORT && RIF_TYPE != RIF_VLAN && RIF_TYPE != RIF_PORT
    ensures RIF_VRF != ADMIN_STATE && RIF_TYPE != ADMIN_STATE && RIF_VLAN != ADMIN_STATE && RIF_PORT != ADMIN_STATE
  {
    assert BP_PORT[21] != ADMIN_STATE[21] && LM_LAG[20] != LM_PORT[20];
    assert LM_LAG[4] != ADMIN_STATE[4] && LM_PORT[4] != ADMIN_STATE[4];
    assert VM_VLAN[21] != VM_BP[21] && VM_VLAN[26] != VM_TAG[26] && VM_BP[21] != VM_TAG[21];
    assert VM_VLAN[4] != ADMIN_STATE[4] && VM_BP[4] != ADMIN_STATE[4] && VM_TAG[4] != ADMIN_STATE[4];
    assert RIF_VRF[26] != RIF_TYPE[26] && RIF_VRF[27] != RIF_VLAN[27] && RIF_VRF[26] != RIF_PORT[26];
    assert RIF_TYPE[26] != RIF_VLAN[26] && RIF_TYPE[26] != RIF_PORT[26];
    assert RIF_VRF[4] != ADMIN_STATE[4] && RIF_TYPE[4] != ADMIN_STATE[4] && RIF_VLAN[4] != ADMIN_STATE[4] && RIF_PORT[4] != ADMIN_STATE[4];
  }

  lemma BpAttrMap(port: Oid)
    ensures WellFormedAttrs(BpAttrs(port))
    ensures AttrMap(BpAttrs(port)) == map[BP_TYPE := Txt("SAI_BRIDGE_PORT_TYPE_PORT"), BP_PORT := Ref(port), ADMIN_STATE := Txt("true")]
    ensures var a := AttrMap(BpAttrs(port));
      BP_PORT in a && a[BP_PORT] == Ref(port) && ADMIN_STATE in a && a[ADMIN_STATE].Txt?
  {
    ThreePairs(BP_TYPE, Txt("SAI_BRIDGE_PORT_TYPE_PORT"), BP_PORT, Ref(port), ADMIN_STATE, Txt("true"));
    AttrNamesDiffer();
  }

  lemma LmAttrMap(lag: Oid, port: Oid)
    ensures WellFormedAttrs(LmAttrs(lag, port))
    ensures AttrMap(LmAttrs(lag, port)) == map[LM_LAG := Ref(lag), LM_PORT := Ref(port)]
    ensures ADMIN_STATE !in AttrMap(LmAttrs(lag, port))
  {
    TwoPairs(LM_LAG, Ref(lag), LM_PORT, Ref(port));
    AttrNamesDiffer();
  }

  lemma VmAttrMap(vlan: Oid, bp: Oid, tag: Value)
    ensures WellFormedAttrs(VmAttrs(vlan, bp, tag))
    ensures AttrMap(VmAttrs(vlan, bp, tag)) == map[VM_VLAN := Ref(vlan), VM_BP := Ref(bp), VM_TAG := tag]
    ensures ADMIN_STATE !in AttrMap(VmAttrs(vlan, bp, tag))
  {
    ThreePairs(VM_VLAN, Ref(vlan), VM_BP, Ref(bp), VM_TAG, tag);
    AttrNamesDiffer();
  }

  lemma RifAttrMap(vrf: Oid, kind: string, attr: string, on: Oid)
    requires attr == RIF_VLAN || attr == RIF_PORT
    ensures WellFormedAttrs(RifAttrs(vrf, kind, attr, on))
    ensures var a := AttrMap(RifAttrs(vrf, kind, attr, on));
      && RIF_VRF in a && a[RIF_VRF] == Ref(vrf) && RIF_TYPE in a && a[RIF_TYPE] == Txt(kind)
      && attr in a && a[attr] == Ref(on) && ADMIN_STATE !in a
  {
    ThreePairs(RIF_VRF, Ref(vrf), RIF_TYPE, Txt(kind), attr, Ref(on));
    AttrNamesDiffer();
  }

  function VlanAttrs(id: nat): seq<Value> {
    [Txt(VLAN_ID), Txt(Decimal(id))]
  }

  lemma {:induction false} VlanAttrMap(id: nat)
    ensures AttrMap(VlanAttrs(id)) == map[VLAN_ID := Txt(Decimal(id))] && ADMIN_STATE !in AttrMap(VlanAttrs(id))
  {
    AttrMapNext([], VLAN_ID, Txt(Decimal(id)));
    assert [] + VlanAttrs(id) == VlanAttrs(id);
    assert VLAN_ID[4] != ADMIN_STATE[4];
  }

  // What the switch demands of these lists: that the objects they name are live, or null.

  lemma {:induction false} BpAttrsLive(s: Store, port: Oid)
    ensures LiveFlat(s, BpAttrs(port)) <==> LiveV(s, Ref(port))
  {
    LiveThree(s, BP_TYPE, Txt("SAI_BRIDGE_PORT_TYPE_PORT"), BP_PORT, Ref(port), ADMIN_STATE, Txt("true"));
  }

  lemma {:induction false} LmAttrsLive(s: Store, lag: Oid, port: Oid)
    ensures LiveFlat(s, LmAttrs(lag, port)) <==> LiveV(s, Ref(lag)) && LiveV(s, Ref(port))
  {
    LiveTwo(s, LM_LAG, Ref(lag), LM_PORT, Ref(port));
  }

  lemma {:induction false} VmAttrsLive(s: Store, vlan: Oid, bp: Oid, tag: Value)
    requires tag.Txt?
    ensures LiveFlat(s, VmAttrs(vlan, bp, tag)) <==> LiveV(s, Ref(vlan)) && LiveV(s, Ref(bp))
  {
    LiveThree(s, VM_VLAN, Ref(vlan), VM_BP, Ref(bp), VM_TAG, tag);
  }

  lemma {:induction false} RifAttrsLive(s: Store, vrf: Oid, kind: string, attr: string, on: Oid)
    ensures LiveFlat(s, RifAttrs(vrf, kind, attr, on)) <==> LiveV(s, Ref(vrf)) && LiveV(s, Ref(on))
  {
    LiveThree(s, RIF_VRF, Ref(vrf), RIF_TYPE, Txt(kind), attr, Ref(on));
  }

  lemma {:induction false} VlanAttrsLive(s: Store, id: nat)
    ensures LiveFlat(s, VlanAttrs(id)) && WellFormedAttrs(VlanAttrs(id))
  {
    LiveNext(s, [], VLAN_ID, Txt(Decimal(id)));
    AttrMapNext([], VLAN_ID, Txt(Decimal(id)));
    assert [] + VlanAttrs(id) == VlanAttrs(id);
  }

  // ---------- facts about stores ----------

  predicate BoundTo(s: Store, o: Oid, attr: string, v: Value) {
    OidH(o) in s && attr in s[OidH(o)] && s[OidH(o)][attr] == v
  }

  /** One attribute of one object set to a text. */
  function WithText(s: Store, h: Handle, attr: string, text: string): Store {
    if h in s then s[h := s[h][attr := Txt(text)]] else s
  }

  /** Everything in `s` is still in `t`, unchanged. */
  ghost predicate Extends(s: Store, t: Store) {
    forall h | h in s :: h in t && t[h] == s[h]
  }

  /** What is new are objects, not entries. */
  ghost predicate OnlyObjects(s: Store, t: Store) {
    forall h | h in t && h !in s :: h.OidH?
  }

  ghost predicate Enlarges(s: Store, t: Store) {
    Extends(s, t) && OnlyObjects(s, t)
  }
}
