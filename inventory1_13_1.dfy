/** The 1.13 to 1.13.1 item translation: item ids from 443 on move up five places, and the trade list
  * carried by a plugin message has its items rewritten. */
module Inventory1_13_1 {
  import opened Wrappers
  import opened Packets
  import opened LegacyTypes
  import Bytes

  /** `getNewItemId`: the five new items are inserted at 443. The shift is a Java `int` sum, so the five
    * largest ids wrap round to negative ids. */
  function NewItemId(id: int): (r: int)
    ensures id < 443 ==> r == id
    ensures 443 <= id < Bytes.TWO_31 - 5 ==> r == id + 5
    ensures Bytes.IsInt32(id) ==> Bytes.IsInt32(r) && (r < 443 || r >= 448)
    ensures Bytes.IsInt32(id) && id >= Bytes.TWO_31 - 5 ==> r == id + 5 - Bytes.TWO_32 && r < 0
  {
    if id >= 443 then Bytes.IntAdd(id, 5) else id
  }

  /** `getOldItemId`: `id - 5` on an `int` from 448 up never wraps. */
  function OldItemId(id: int): (r: int)
    ensures id >= 448 ==> r + 5 == id
    ensures id < 448 ==> r == id
  {
    if id >= 448 then id - 5 else id
  }

  /** Going back after going forward gives every id back, except the five largest ints: their forward
    * sum wraps to a negative id, which the way back leaves alone. */
  lemma OldAfterNew(id: int)
    requires Bytes.IsInt32(id)
    ensures id < Bytes.TWO_31 - 5 ==> OldItemId(NewItemId(id)) == id
    ensures id >= Bytes.TWO_31 - 5 ==> OldItemId(NewItemId(id)) == id + 5 - Bytes.TWO_32
  {
  }

  /** Going forward after going back gives the id back except on the five inserted ids, which no old id reaches. */
  lemma NewAfterOld(id: int)
    requires Bytes.IsInt32(id)
    ensures NewItemId(OldItemId(id)) == id <==> !(443 <= id < 448)
    ensures 443 <= id < 448 ==> forall prior :: Bytes.IsInt32(prior) ==> NewItemId(prior) != id
  {
  }

  /** `toClient`: nothing happens to an absent item; otherwise only the identifier changes. */
  function ToClient(item: Option<Item>): (r: Option<Item>)
    ensures r.None? <==> item.None?
    ensures r.Some? ==> r.value.amount == item.value.amount && r.value.data == item.value.data && r.value.tag == item.value.tag
  {
    match item
    case None => None
    case Some(i) => Some(i.(identifier := NewItemId(i.identifier)))
  }

  /** `toServer`. */
  function ToServer(item: Option<Item>): (r: Option<Item>)
    ensures r.None? <==> item.None?
    ensures r.Some? ==> r.value.amount == item.value.amount && r.value.data == item.value.data && r.value.tag == item.value.tag
  {
    match item
    case None => None
    case Some(i) => Some(i.(identifier := OldItemId(i.identifier)))
  }

  /** An item sent to the client and back arrives unchanged, except one of the five largest ids, which
    * comes back wrapped to a negative id. */
  lemma ServerAfterClient(item: Option<Item>)
    requires item.Some? ==> Bytes.IsInt32(item.value.identifier)
    ensures !(item.Some? && item.value.identifier >= Bytes.TWO_31 - 5) ==> ToServer(ToClient(item)) == item
    ensures item.Some? && item.value.identifier >= Bytes.TWO_31 - 5 ==>
      ToServer(ToClient(item)) == Some(item.value.(identifier := item.value.identifier + 5 - Bytes.TWO_32))
  {
    if item.Some? {
      OldAfterNew(item.value.identifier);
    }
  }

  /** A field as the trade-list handler leaves it: item fields rewritten for the client, others untouched. */
  function ClientField(f: Field): Field {
    if f.ty == FlatItem && f.value.ItemV? then Field(FlatItem, ItemV(ToClient(f.value.item))) else f
  }

  function ClientFields(fs: seq<Field>): (r: seq<Field>)
    ensures |r| == |fs|
    ensures forall i :: 0 <= i < |fs| ==> r[i] == ClientField(fs[i])
  {
    seq(|fs|, i requires 0 <= i < |fs| => ClientField(fs[i]))
  }

  /** Where the trade starting at index `at` of `fs` ends: input item, output item, a flag, the second item
    * when the flag is set, then the disabled flag and two use counters. */
  function TradeEnd(fs: seq<Field>, at: nat): (r: Option<nat>)
    ensures r.Some? ==> at + 6 <= r.value <= |fs|
  {
    if !(at + 3 <= |fs| && fs[at].ty == FlatItem && fs[at + 1].ty == FlatItem && fs[at + 2].ty == Boolean) then None
    else if fs[at + 2].value.BoolV? && fs[at + 2].value.b then
      (if at + 7 <= |fs| && fs[at + 3].ty == FlatItem && fs[at + 4].ty == Boolean && fs[at + 5].ty == Int &&
          fs[at + 6].ty == Int
       then Some(at + 7) else None)
    else
      (if at + 6 <= |fs| && fs[at + 3].ty == Boolean && fs[at + 4].ty == Int && fs[at + 5].ty == Int
       then Some(at + 6) else None)
  }

  /** Where `count` trades starting at index `at` of `fs` end. */
  function TradesEnd(fs: seq<Field>, at: nat, count: int): (r: Option<nat>)
    ensures r.Some? ==> at <= r.value <= |fs| || (count <= 0 && r.value == at)
    decreases count
  {
    if count <= 0 then Some(at)
    else match TradeEnd(fs, at)
      case None => None
      case Some(next) => TradesEnd(fs, next, count - 1)
  }

  /** Rewriting is field by field, so it distributes over concatenation. */
  lemma ClientFieldsAppend(a: seq<Field>, b: seq<Field>)
    ensures ClientFields(a + b) == ClientFields(a) + ClientFields(b)
  {
    assert forall i :: 0 <= i < |a + b| ==> ClientFields(a + b)[i] == (ClientFields(a) + ClientFields(b))[i];
  }

  /** Rewriting the fields up to `k + 1` is rewriting those up to `k` and then field `k`. */
  lemma ClientFieldsSnoc(fs: seq<Field>, from: nat, k: nat)
    requires from <= k < |fs|
    ensures ClientFields(fs[from..k + 1]) == ClientFields(fs[from..k]) + [ClientField(fs[k])]
  {
    assert fs[from..k + 1] == fs[from..k] + [fs[k]];
    ClientFieldsAppend(fs[from..k], [fs[k]]);
  }

  /** Takes the next field, which must be of type `t`, and writes it as the client-bound rewrite leaves it. */
  method RewriteNext(w: PacketWrapper, t: FieldType) returns (r: Result<Value>)
    modifies w
    ensures r.Success? <==> HasLayout(old(w.input), [t])
    ensures r.Success? ==> r.value == old(w.input)[0].value
    ensures r.Success? ==> w.input == old(w.input)[1..] && w.output == old(w.output) + [ClientField(old(w.input)[0])]
    ensures w.id == old(w.id) && w.cancelled == old(w.cancelled) && w.sent == old(w.sent)
  {
    var v :- w.Read(t);
    var f := ClientField(Field(t, v));
    w.Write(f.ty, f.value);
    r := Success(v);
  }

  /** Takes fields of the given types in turn from index `from` of `fs`, each written as the client-bound
    * rewrite leaves it; the result is the last value read. */
  method RewriteFields(w: PacketWrapper, ghost fs: seq<Field>, ghost from: nat, types: seq<FieldType>)
    returns (r: Result<Value>)
    modifies w
    requires |types| > 0 && from <= |fs| && w.input == fs[from..]
    ensures r.Success? <==> HasLayout(fs[from..], types)
    ensures r.Success? ==>
      r.value == fs[from + |types| - 1].value && w.input == fs[from + |types|..] &&
      w.output == old(w.output) + ClientFields(fs[from..from + |types|])
    ensures w.id == old(w.id) && w.cancelled == old(w.cancelled) && w.sent == old(w.sent)
  {
    ghost var out := w.output;
    var k := 0;
    r := Failure("no field");
    while k < |types|
      invariant 0 <= k <= |types| && from + k <= |fs|
      invariant w.input == fs[from + k..] && w.output == out + ClientFields(fs[from..from + k])
      invariant forall j :: 0 <= j < k ==> fs[from + j].ty == types[j]
      invariant k > 0 ==> r == Success(fs[from + k - 1].value)
      invariant w.id == old(w.id) && w.cancelled == old(w.cancelled) && w.sent == old(w.sent)
    {
      r := RewriteNext(w, types[k]);
      if r.Failure? {
        assert from + k < |fs| ==> fs[from..][k] == fs[from + k];
        return;
      }
      ClientFieldsSnoc(fs, from, from + k);
      k := k + 1;
    }
    assert forall j :: 0 <= j < |types| ==> fs[from..][j] == fs[from + j];
  }

  /** A trade with an end starts with its two items and flag. */
  lemma TradeHead(fs: seq<Field>, at: nat)
    requires at <= |fs|
    ensures TradeEnd(fs, at).Some? ==> HasLayout(fs[at..], [FlatItem, FlatItem, Boolean])
  {
    if TradeEnd(fs, at).Some? {
      assert fs[at..][0] == fs[at] && fs[at..][1] == fs[at + 1] && fs[at..][2] == fs[at + 2];
    }
  }

  /** Once its two items and flag are there, a trade ends where the fields its flag calls for do. */
  lemma TradeEndLayout(fs: seq<Field>, at: nat, rest: seq<FieldType>)
    requires at <= |fs| && HasLayout(fs[at..], [FlatItem, FlatItem, Boolean])
    requires rest == if fs[at + 2].value.BoolV? && fs[at + 2].value.b then [FlatItem, Boolean, Int, Int]
                     else [Boolean, Int, Int]
    ensures TradeEnd(fs, at) == if HasLayout(fs[at + 3..], rest) then Some(at + 3 + |rest|) else None
  {
    assert fs[at..][0] == fs[at] && fs[at..][1] == fs[at + 1] && fs[at..][2] == fs[at + 2];
  }

  /** Passes the trade at index `at` of `fs` through, rewriting its items. */
  method PassTrade(w: PacketWrapper, ghost fs: seq<Field>, ghost at: nat) returns (r: Result<()>)
    modifies w
    requires at <= |fs| && w.input == fs[at..]
    ensures r.Success? <==> TradeEnd(fs, at).Some?
    ensures r.Success? ==> var e := TradeEnd(fs, at).value;
      w.input == fs[e..] && w.output == old(w.output) + ClientFields(fs[at..e])
    ensures w.id == old(w.id) && w.cancelled == old(w.cancelled) && w.sent == old(w.sent)
  {
    ghost var out := w.output;
    var flag := RewriteFields(w, fs, at, [FlatItem, FlatItem, Boolean]);
    if flag.Failure? {
      TradeHead(fs, at);
      return Failure(flag.error);
    }
    var second := flag.value.BoolV? && flag.value.b;
    var rest: seq<FieldType> := if second then [FlatItem, Boolean, Int, Int] else [Boolean, Int, Int];
    TradeEndLayout(fs, at, rest);
    var tail :- RewriteFields(w, fs, at + 3, rest);
    ghost var e := at + 3 + |rest|;
    assert fs[at..e] == fs[at..at + 3] + fs[at + 3..e];
    ClientFieldsAppend(fs[at..at + 3], fs[at + 3..e]);
    AppendAssoc(out, ClientFields(fs[at..at + 3]), ClientFields(fs[at + 3..e]));
    r := Success(());
  }

  /** Passes the next trade, at index `pos`, after those from index `at` already written. */
  method PassNextTrade(w: PacketWrapper, ghost fs: seq<Field>, ghost at: nat, ghost pos: nat, ghost out: seq<Field>,
                       ghost left: int)
    returns (r: Result<()>, ghost next: nat)
    modifies w
    requires at <= pos <= |fs| && w.input == fs[pos..] && w.output == out + ClientFields(fs[at..pos]) && left > 0
    ensures r.Success? <==> TradeEnd(fs, pos).Some?
    ensures r.Failure? ==> TradesEnd(fs, pos, left).None?
    ensures r.Success? ==>
      next == TradeEnd(fs, pos).value && w.input == fs[next..] && w.output == out + ClientFields(fs[at..next]) &&
      TradesEnd(fs, pos, left) == TradesEnd(fs, next, left - 1)
    ensures w.id == old(w.id) && w.cancelled == old(w.cancelled) && w.sent == old(w.sent)
  {
    next := pos;
    r := PassTrade(w, fs, pos);
    if r.Failure? {
      return;
    }
    next := TradeEnd(fs, pos).value;
    assert fs[at..next] == fs[at..pos] + fs[pos..next];
    ClientFieldsAppend(fs[at..pos], fs[pos..next]);
    AppendAssoc(out, ClientFields(fs[at..pos]), ClientFields(fs[pos..next]));
  }

  /** Passes `count` trades starting at index `at` of `fs` through, rewriting their items. */
  method PassTrades(w: PacketWrapper, ghost fs: seq<Field>, ghost at: nat, count: int) returns (r: Result<()>)
    modifies w
    requires at <= |fs| && w.input == fs[at..]
    ensures r.Success? <==> TradesEnd(fs, at, count).Some?
    ensures r.Success? ==> var e := TradesEnd(fs, at, count).value;
      w.input == fs[e..] && w.output == old(w.output) + ClientFields(fs[at..e])
    ensures w.id == old(w.id) && w.cancelled == old(w.cancelled) && w.sent == old(w.sent)
  {
    ghost var out := w.output;
    var i := 0;
    ghost var pos: nat := at;
    assert fs[at..at] == [];
    while i < count
      invariant 0 <= i && (count >= 0 ==> i <= count)
      invariant at <= pos <= |fs|
      invariant w.input == fs[pos..] && w.output == out + ClientFields(fs[at..pos])
      invariant TradesEnd(fs, at, count) == TradesEnd(fs, pos, count - i)
      invariant w.id == old(w.id) && w.cancelled == old(w.cancelled) && w.sent == old(w.sent)
      decreases count - i
    {
      var trade;
      trade, pos := PassNextTrade(w, fs, at, pos, out, count - i);
      if trade.Failure? {
        return Failure(trade.error);
      }
      i := i + 1;
    }
    r := Success(());
  }

  /** `minecraft:trader_list` and its legacy name are the channels that carry a trade list. */
  predicate IsTraderList(channel: string) {
    channel == "minecraft:trader_list" || channel == "trader_list"
  }

  /** The input a plugin message handler accepts: a string channel, and on the trader-list channels a window
    * id, a trade count and that many trades. */
  predicate WellFormedPluginMessage(fs: seq<Field>) {
    HasLayout(fs, [Str]) && fs[0].value.StrV? &&
    (IsTraderList(fs[0].value.s) ==>
      HasLayout(fs, [Str, Int, UnsignedByte]) && fs[2].value.IntV? && TradesEnd(fs, 3, fs[2].value.n).Some?)
  }

  /** Plugin message: on the trader-list channels the window id and trade count pass through and every item
    * of every trade is rewritten for the client; on other channels only the channel name is handled. */
  method PluginMessage(w: PacketWrapper) returns (r: Result<()>)
    modifies w
    requires w.output == []
    ensures r.Success? <==> WellFormedPluginMessage(old(w.input))
    ensures r.Success? && !IsTraderList(old(w.input)[0].value.s) ==>
      w.output == old(w.input)[..1] && w.input == old(w.input)[1..]
    ensures r.Success? && IsTraderList(old(w.input)[0].value.s) ==>
      var e := TradesEnd(old(w.input), 3, old(w.input)[2].value.n).value;
      w.output == old(w.input)[..3] + ClientFields(old(w.input)[3..e]) && w.input == old(w.input)[e..]
    ensures w.id == old(w.id) && w.cancelled == old(w.cancelled) && w.sent == old(w.sent)
  {
    ghost var fs := w.input;
    var ch :- w.Passthrough(Str);
    var channel := w.Get(Str, 0);
    if channel.Failure? || !channel.value.StrV? {
      return Failure("channel is not a string");
    }
    if !IsTraderList(channel.value.s) {
      return Success(());
    }
    var size :- PassTraderHeader(w, fs);
    r := PassTrades(w, fs, 3, size);
  }

  /** The window id and trade count of a trader list, after its channel; the result is the trade count. */
  method PassTraderHeader(w: PacketWrapper, ghost fs: seq<Field>) returns (r: Result<int>)
    modifies w
    requires HasLayout(fs, [Str]) && w.input == fs[1..] && w.output == fs[..1]
    ensures r.Success? <==> HasLayout(fs, [Str, Int, UnsignedByte]) && fs[2].value.IntV?
    ensures r.Success? ==> r.value == fs[2].value.n && w.input == fs[3..] && w.output == fs[..3]
    ensures w.id == old(w.id) && w.cancelled == old(w.cancelled) && w.sent == old(w.sent)
  {
    var windowId := w.Passthrough(Int);
    if windowId.Failure? {
      return Failure(windowId.error);
    }
    var size := w.Passthrough(UnsignedByte);
    if size.Failure? {
      return Failure(size.error);
    }
    if !size.value.IntV? {
      return Failure("trade count is not an int");
    }
    assert fs[..3] == fs[..1] + [fs[1], fs[2]];
    r := Success(size.value.n);
  }
}
