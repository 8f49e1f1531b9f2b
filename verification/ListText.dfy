/**
  Count-prefixed lists: the text "n:a,b,c" of a list, the text of a read buffer, and reading a
  list of unknown length from the switch in two steps.
 */
module ListText {
  import opened Text
  import opened Numbers
  import opened Wrappers

  const COMMA := ','
  const COLON := ':'

  function Repeat(s: string, n: nat): string {
    if n == 0 then "" else s + Repeat(s, n - 1)
  }

  function MakeList(length: nat, elem: string): string {
    Decimal(length) + ":" + (if length == 0 then elem else Repeat(elem + ",", length - 1) + elem)
  }

  /** str.partition: the text before the first colon and the text after it. */
  function Partition(s: string): (string, string) {
    if |s| == 0 then ("", "")
    else if s[0] == COLON then ("", s[1..])
    else
      var (head, rest) := Partition(s[1..]);
      ([s[0]] + head, rest)
  }

  function ToList(value: string): seq<string> {
    var (count, items) := Partition(value);
    if IsDigits(count) && ParseDecimal(count) > 0 then Split(items, COMMA) else []
  }

  function Copies(elem: string, n: nat): (r: seq<string>)
    ensures |r| == n
  {
    seq(n, i => elem)
  }

  lemma {:induction false} PartitionAt(head: string, rest: string)
    requires Free(head, COLON)
    ensures Partition(head + ":" + rest) == (head, rest)
  {
    var s := head + ":" + rest;
    if |head| == 0 {
      assert s[0] == COLON && s[1..] == rest;
    } else {
      PartitionAt(head[1..], rest);
      assert s[1..] == head[1..] + ":" + rest;
      assert [head[0]] + head[1..] == head;
    }
  }

  lemma {:induction false} CountedText(n: nat, items: string)
    ensures ToList(Decimal(n) + ":" + items) == if n > 0 then Split(items, COMMA) else []
  {
    DecimalRoundTrip(n);
    PartitionAt(Decimal(n), items);
  }

  lemma {:induction false} RepeatIsJoin(elem: string, n: nat)
    requires n > 0
    ensures Repeat(elem + ",", n - 1) + elem == Join(Copies(elem, n), ",")
  {
    if n > 1 {
      RepeatIsJoin(elem, n - 1);
      assert Copies(elem, n)[1..] == Copies(elem, n - 1);
      assert elem + "," + Repeat(elem + ",", n - 2) + elem == elem + "," + (Repeat(elem + ",", n - 2) + elem);
    }
  }

  function Commas(s: string): nat {
    if |s| == 0 then 0 else Commas(s[1..]) + if s[0] == COMMA then 1 else 0
  }

  lemma {:induction false} PiecesAreCommas(s: string)
    ensures |Split(s, COMMA)| == Commas(s) + 1
  {
    if |s| > 0 { PiecesAreCommas(s[1..]); }
  }

  lemma {:induction false} CommasConcat(s: string, t: string)
    ensures Commas(s + t) == Commas(s) + Commas(t)
  {
    if |s| == 0 {
      assert s + t == t;
    } else {
      CommasConcat(s[1..], t);
      assert (s + t)[1..] == s[1..] + t;
    }
  }

  lemma {:induction false} NoCommas(s: string)
    ensures Free(s, COMMA) <==> Commas(s) == 0
  {
    if |s| > 0 { NoCommas(s[1..]); }
  }

  lemma {:induction false} CommasOfRepeat(elem: string, n: nat)
    ensures Commas(Repeat(elem + ",", n)) == n * (Commas(elem) + 1)
  {
    if n > 0 {
      CommasOfRepeat(elem, n - 1);
      CommasConcat(elem, ",");
      CommasConcat(elem + ",", Repeat(elem + ",", n - 1));
      assert Commas(",") == 1;
      assert n * (Commas(elem) + 1) == (n - 1) * (Commas(elem) + 1) + (Commas(elem) + 1);
    }
  }

  lemma PiecesOfMade(n: nat, elem: string)
    requires n > 0
    ensures |Split(Repeat(elem + ",", n - 1) + elem, COMMA)| == n * (Commas(elem) + 1)
  {
    var k, r := Commas(elem) + 1, Repeat(elem + ",", n - 1);
    PiecesAreCommas(r + elem);
    CommasOfRepeat(elem, n - 1);
    CommasConcat(r, elem);
    assert (n - 1) * k + k == n * k;
  }

  /** Reading a made list gives back the copies exactly when there are none or the element has no comma. */
  lemma ToListOfMakeList(n: nat, elem: string)
    ensures ToList(MakeList(n, elem)) == Copies(elem, n) <==> n == 0 || Free(elem, COMMA)
  {
    if n == 0 {
      CountedText(0, elem);
    } else {
      CountedText(n, Repeat(elem + ",", n - 1) + elem);
      NoCommas(elem);
      if Free(elem, COMMA) {
        RepeatIsJoin(elem, n);
        SplitJoin(Copies(elem, n), COMMA);
      } else {
        PiecesOfMade(n, elem);
        MorePieces(n, Commas(elem) + 1);
      }
    }
  }

  lemma MorePieces(n: nat, k: nat)
    requires n > 0 && k > 1
    ensures n * k > n
  {
  }

  // ---------- object lists ----------

  function OidText(id: nat): string {
    "oid:0x" + Hex(id)
  }

  function OidTexts(ids: seq<nat>): (r: seq<string>)
    ensures |r| == |ids|
  {
    seq(|ids|, i requires 0 <= i < |ids| => OidText(ids[i]))
  }

  /** The first `count` ids as text; `ids` may hold more. */
  function ObjectListText(count: nat, ids: seq<nat>): string
    requires count <= |ids|
  {
    if count == 0 then "0:null" else Decimal(count) + ":" + Join(OidTexts(ids[..count]), ",")
  }

  /** Each id is followed by a comma, and the last comma is cut off. */
  method FromSaiObjectList(count: nat, ids: seq<nat>) returns (result: string)
    requires count <= |ids|
    ensures result == ObjectListText(count, ids)
  {
    if count == 0 { return "0:null"; }
    var head := Decimal(count) + ":";
    result := head;
    for ii := 0 to count
      invariant ii == 0 ==> result == head
      invariant ii > 0 ==> result == head + Join(OidTexts(ids[..ii]), ",") + ","
    {
      assert ids[..ii + 1] == ids[..ii] + [ids[ii]];
      assert OidTexts(ids[..ii + 1]) == OidTexts(ids[..ii]) + [OidText(ids[ii])];
      if ii > 0 { JoinSnoc(OidTexts(ids[..ii]), OidText(ids[ii])); }
      result := result + OidText(ids[ii]);
      result := result + ",";
    }
    result := result[..|result| - 1];
  }

  lemma {:induction false} JoinSnoc(parts: seq<string>, x: string)
    requires |parts| > 0
    ensures Join(parts + [x], ",") == Join(parts, ",") + "," + x
  {
    if |parts| > 1 {
      var j := Join(parts[1..], ",");
      JoinSnoc(parts[1..], x);
      assert (parts + [x])[1..] == parts[1..] + [x];
      Regroup(parts[0] + ",", j, ",", x);
    } else {
      assert (parts + [x])[1..] == [x];
    }
  }

  lemma Regroup(w: string, x: string, y: string, z: string)
    ensures w + (x + y + z) == (w + x) + y + z
  {
  }

  lemma HexFree(n: nat)
    ensures Free(OidText(n), COMMA)
  {
    HexDigits(n);
  }

  lemma {:induction false} HexDigits(n: nat)
    ensures Free(Hex(n), COMMA)
  {
    if n >= 16 { HexDigits(n / 16); }
  }

  /** The text of an object list is read as the texts of its first `count` ids. */
  lemma ToListOfObjectList(count: nat, ids: seq<nat>)
    requires count <= |ids|
    ensures ToList(ObjectListText(count, ids)) == OidTexts(ids[..count])
  {
    if count == 0 {
      DecimalRoundTrip(0);
      assert "0:null" == Decimal(0) + ":" + "null";
      CountedText(0, "null");
    } else {
      var texts := OidTexts(ids[..count]);
      CountedText(count, Join(texts, ","));
      forall i | 0 <= i < |texts| ensures Free(texts[i], COMMA) { HexFree(ids[i]); }
      SplitJoin(texts, COMMA);
    }
  }

  /** "null" is 0, "oid:0x10" is 16. */
  function ObjectId(text: string): nat {
    if text == "null" then 0
    else if |text| >= 6 && text[..6] == "oid:0x" then ParseHex(text[6..])
    else ParseDecimal(text)
  }

  function ObjectIds(texts: seq<string>): (r: seq<nat>)
    ensures |r| == |texts|
  {
    seq(|texts|, i requires 0 <= i < |texts| => ObjectId(texts[i]))
  }

  /** The count and the ids of a list text. */
  function SaiObjectList(text: string): (nat, seq<nat>) {
    var (count, items) := Partition(text);
    (ParseDecimal(count), ObjectIds(Split(items, COMMA)))
  }

  lemma ObjectIdOfText(id: nat)
    ensures ObjectId(OidText(id)) == id
  {
    assert OidText(id)[..6] == "oid:0x" && OidText(id)[6..] == Hex(id);
    assert OidText(id)[0] == 'o';
    HexRoundTrip(id);
  }

  /** The way to text and back keeps the count and the first `count` ids. */
  lemma ObjectListRoundTrip(count: nat, ids: seq<nat>)
    requires count <= |ids|
    ensures var (n, back) := SaiObjectList(ObjectListText(count, ids));
      n == count && count <= |back| && back[..count] == ids[..count]
  {
    DecimalRoundTrip(count);
    if count == 0 {
      assert "0:null" == Decimal(0) + ":" + "null";
      PartitionAt(Decimal(0), "null");
    } else {
      var texts := OidTexts(ids[..count]);
      PartitionAt(Decimal(count), Join(texts, ","));
      forall i | 0 <= i < |texts| ensures Free(texts[i], COMMA) && ObjectId(texts[i]) == ids[i] {
        HexFree(ids[i]);
        ObjectIdOfText(ids[i]);
      }
      SplitJoin(texts, COMMA);
    }
  }

  // ---------- reading in two steps ----------

  datatype Reply = Success(text: string) | Overflow(text: string) | Failure

  function ListText(items: seq<string>): string {
    if |items| == 0 then "0:null" else Decimal(|items|) + ":" + Join(items, ",")
  }

  lemma ToListOfListText(items: seq<string>)
    requires forall i | 0 <= i < |items| :: Free(items[i], COMMA)
    ensures ToList(ListText(items)) == items
  {
    if |items| == 0 {
      assert "0:null" == Decimal(0) + ":" + "null";
      CountedText(0, "null");
    } else {
      CountedText(|items|, Join(items, ","));
      SplitJoin(items, COMMA);
    }
  }

  /** An attribute of the switch that holds a list: a buffer that is too small is answered with a length. */
  class Device {
    const items: seq<string>
    const reported: nat
    var calls: nat

    constructor (items: seq<string>, reported: nat)
      ensures this.items == items && this.reported == reported && calls == 0
    {
      this.items, this.reported, calls := items, reported, 0;
    }

    method Get(buffer: string) returns (reply: Reply)
      modifies this`calls
      ensures calls == old(calls) + 1
      ensures reply == Answer(items, reported, Partition(buffer).0)
    {
      calls := calls + 1;
      reply := Answer(items, reported, Partition(buffer).0);
    }
  }

  function Answer(items: seq<string>, reported: nat, count: string): Reply {
    if !IsDigits(count) then Failure
    else if |items| <= ParseDecimal(count) then Success(ListText(items))
    else Overflow(Decimal(reported))
  }

  lemma {:induction false} BufferCount(n: nat, elem: string)
    ensures Partition(MakeList(n, elem)).0 == Decimal(n) && IsDigits(Decimal(n)) && ParseDecimal(Decimal(n)) == n
  {
    DecimalRoundTrip(n);
    var items := if n == 0 then elem else Repeat(elem + ",", n - 1) + elem;
    assert MakeList(n, elem) == Decimal(n) + ":" + items;
    PartitionAt(Decimal(n), items);
  }

  /**
    The whole list is read in at most two reads, the second only when the first overflows; it
    fails exactly when the length the switch reported with the overflow was too small.
   */
  method GetList(device: Device, elem: string) returns (r: Option<seq<string>>)
    requires forall i | 0 <= i < |device.items| :: Free(device.items[i], COMMA)
    modifies device`calls
    ensures r == if |device.items| <= 1 || |device.items| <= device.reported then Some(device.items) else None
    ensures device.calls == old(device.calls) + if |device.items| <= 1 then 1 else 2
  {
    ToListOfListText(device.items);
    BufferCount(1, elem);
    assert MakeList(1, elem) == "1:" + elem;
    var reply := device.Get("1:" + elem);
    match reply
    case Overflow(text) =>
      DecimalRoundTrip(device.reported);
      var n := ParseDecimal(text);
      BufferCount(n, elem);
      var again := device.Get(MakeList(n, elem));
      match again {
        case Success(list) => r := Some(ToList(list));
        case _ => r := None;
      }
    case Success(list) => r := Some(ToList(list));
    case Failure => r := None;
  }

  /** The list cases of get_by_type: the reply of the last read is handed on with its status. */
  method GetByType(device: Device, elem: string) returns (reply: Reply)
    modifies device`calls
    ensures reply == if |device.items| <= 1 || |device.items| <= device.reported then Success(ListText(device.items))
                     else Overflow(Decimal(device.reported))
    ensures device.calls <= old(device.calls) + 2
  {
    BufferCount(1, elem);
    assert MakeList(1, elem) == "1:" + elem;
    reply := device.Get("1:" + elem);
    if reply.Overflow? {
      DecimalRoundTrip(device.reported);
      BufferCount(device.reported, elem);
      reply := device.Get(MakeList(ParseDecimal(reply.text), elem));
    }
  }
}
