/** The packet envelope every handler works on: the fields still to be read, the fields written so far,
  * the packet id, the cancelled flag, and the extra packets created and sent while handling it. */
module Packets {
  import opened Wrappers
  import opened Nbt
  import opened LegacyTypes

  /** The wire types the modelled handlers use. */
  datatype FieldType =
    | Int | VarInt | Byte | UnsignedByte | Short | Long | Boolean
    | Str | OptionalString | Component | Float | Double | Uuid | Position
    | NbtTag | OptionalNbtTag | FlatItem | FlatVarIntItem | FlatVarIntItemArrayVarInt | VarIntArray | Chunk

  /** A decoded field value. Floats, doubles, UUIDs and positions are opaque. */
  datatype Value =
    | IntV(n: int)
    | BoolV(b: bool)
    | StrV(s: string)
    | OptStrV(os: Option<string>)
    | OpaqueV(bits: int)
    | TagV(tag: Option<Tag>)
    | ItemV(item: Option<Item>)
    | ItemsV(items: seq<Option<Item>>)
    | IntsV(ints: seq<int>)
    | ColumnV(column: Column)

  datatype Field = Field(ty: FieldType, value: Value)

  /** A packet created by a handler and sent on its own. */
  datatype Packet = Packet(id: int, fields: seq<Field>)

  /** Everything a wrapper holds, as one value. */
  datatype Envelope = Envelope(id: int, input: seq<Field>, output: seq<Field>, cancelled: bool, sent: seq<Packet>)

  /** `fs` starts with fields of the types `tys`, in order. */
  predicate HasLayout(fs: seq<Field>, tys: seq<FieldType>) {
    |tys| <= |fs| && forall i :: 0 <= i < |tys| ==> fs[i].ty == tys[i]
  }

  /** Position of the `n`-th field of type `t` (counting from zero), as `get`/`set` find it. */
  function PositionOf(fs: seq<Field>, t: FieldType, n: nat): (r: Option<nat>)
    ensures r.Some? ==> r.value < |fs| && fs[r.value].ty == t
  {
    if |fs| == 0 then None
    else if fs[0].ty == t then
      if n == 0 then Some(0)
      else match PositionOf(fs[1..], t, n - 1) case None => None case Some(p) => Some(p + 1)
    else
      match PositionOf(fs[1..], t, n) case None => None case Some(p) => Some(p + 1)
  }

  /** `get` and `set` address the fields of a type by their rank among the fields of that type. */
  lemma {:induction false} PositionOfAppend(fs: seq<Field>, f: Field, n: nat)
    requires PositionOf(fs, f.ty, n).None?
    ensures PositionOf(fs + [f], f.ty, n) == (if Count(fs, f.ty) == n then Some(|fs|) else None)
  {
    if |fs| == 0 {
      assert fs + [f] == [f];
    } else {
      assert (fs + [f])[1..] == fs[1..] + [f];
      if fs[0].ty == f.ty {
        if n > 0 {
          PositionOfAppend(fs[1..], f, n - 1);
        }
      } else {
        PositionOfAppend(fs[1..], f, n);
      }
    }
  }

  /** The `n`-th field of type `t` sits at `p` when field `p` has that type and `n` fields of it come before. */
  lemma {:induction false} PositionOfAt(fs: seq<Field>, t: FieldType, n: nat, p: nat)
    requires p < |fs| && fs[p].ty == t && Count(fs[..p], t) == n
    ensures PositionOf(fs, t, n) == Some(p)
  {
    if p > 0 {
      assert fs[..p][1..] == fs[1..][..p - 1];
      if fs[0].ty == t {
        PositionOfAt(fs[1..], t, n - 1, p - 1);
      } else {
        PositionOfAt(fs[1..], t, n, p - 1);
      }
    }
  }

  /** In a run of fields all of type `t`, the `n`-th field of type `t` is field `n`. */
  lemma {:induction false} CountUniform(fs: seq<Field>, t: FieldType)
    requires forall i :: 0 <= i < |fs| ==> fs[i].ty == t
    ensures Count(fs, t) == |fs|
  {
    if |fs| > 0 {
      CountUniform(fs[1..], t);
    }
  }

  /** Appending is associative; handlers append each part's fields to those before it. */
  lemma AppendAssoc(a: seq<Field>, b: seq<Field>, c: seq<Field>)
    ensures (a + b) + c == a + (b + c)
  {
  }

  /** A slice is the slices on either side of any point inside it. */
  lemma SliceSplit(fs: seq<Field>, a: nat, b: nat, c: nat)
    requires a <= b <= c <= |fs|
    ensures fs[a..c] == fs[a..b] + fs[b..c]
  {
  }

  /** A layout is a prefix followed by the rest of the layout. */
  lemma HasLayoutSplit(fs: seq<Field>, a: seq<FieldType>, b: seq<FieldType>)
    ensures HasLayout(fs, a + b) <==> HasLayout(fs, a) && HasLayout(fs[|a|..], b)
  {
    if HasLayout(fs, a) && HasLayout(fs[|a|..], b) {
      forall i | 0 <= i < |a + b|
        ensures fs[i].ty == (a + b)[i]
      {
        if i >= |a| {
          assert fs[|a|..][i - |a|] == fs[i];
        }
      }
    }
    if HasLayout(fs, a + b) {
      forall i | 0 <= i < |b|
        ensures fs[|a|..][i].ty == b[i]
      {
        assert (a + b)[|a| + i] == b[i];
      }
    }
  }

  /** Number of fields of type `t`. */
  function Count(fs: seq<Field>, t: FieldType): nat {
    if |fs| == 0 then 0 else (if fs[0].ty == t then 1 else 0) + Count(fs[1..], t)
  }

  class PacketWrapper {
    var id: int
    var input: seq<Field>
    var output: seq<Field>
    var cancelled: bool
    var sent: seq<Packet>

    constructor(id: int, input: seq<Field>)
      ensures this.id == id && this.input == input
      ensures output == [] && !cancelled && sent == []
    {
      this.id := id;
      this.input := input;
      output := [];
      cancelled := false;
      sent := [];
    }

    function State(): Envelope
      reads this
    {
      Envelope(id, input, output, cancelled, sent)
    }

    /** Replaces the whole state, as a remapper run over a snapshot does. */
    method Load(e: Envelope)
      modifies this
      ensures State() == e
    {
      id, input, output, cancelled, sent := e.id, e.input, e.output, e.cancelled, e.sent;
    }

    /** Takes the next input field; a field of another type, or none at all, is an error. */
    method Read(t: FieldType) returns (r: Result<Value>)
      modifies this
      ensures HasLayout(old(input), [t]) ==> r == Success(old(input)[0].value) && input == old(input)[1..]
      ensures !HasLayout(old(input), [t]) ==> r.Failure? && input == old(input)
      ensures output == old(output) && id == old(id) && cancelled == old(cancelled) && sent == old(sent)
    {
      if |input| > 0 && input[0].ty == t {
        r := Success(input[0].value);
        input := input[1..];
      } else {
        r := Failure("cannot read " + (if |input| == 0 then "past the end" else "a field of another type"));
      }
    }

    /** Appends a field to the output. */
    method Write(t: FieldType, v: Value)
      modifies this
      ensures output == old(output) + [Field(t, v)]
      ensures input == old(input) && id == old(id) && cancelled == old(cancelled) && sent == old(sent)
    {
      output := output + [Field(t, v)];
    }

    /** Reads a field and writes it back unchanged (`map(type)` / `passthrough(type)`). */
    method Passthrough(t: FieldType) returns (r: Result<Value>)
      modifies this
      ensures HasLayout(old(input), [t]) ==> r == Success(old(input)[0].value) && input == old(input)[1..]
                                             && output == old(output) + [old(input)[0]]
      ensures !HasLayout(old(input), [t]) ==> r.Failure? && input == old(input) && output == old(output)
      ensures id == old(id) && cancelled == old(cancelled) && sent == old(sent)
    {
      r := Read(t);
      if r.Success? {
        Write(t, r.value);
      }
    }

    /** A chain of `map(type)` steps: each field of the layout `tys` is read and written back unchanged. */
    method PassthroughAll(tys: seq<FieldType>) returns (r: Result<()>)
      modifies this
      ensures r.Success? <==> HasLayout(old(input), tys)
      ensures r.Success? ==> output == old(output) + old(input)[..|tys|] && input == old(input)[|tys|..]
      ensures id == old(id) && cancelled == old(cancelled) && sent == old(sent)
    {
      var k := 0;
      while k < |tys|
        invariant 0 <= k <= |tys|
        invariant HasLayout(old(input), tys[..k])
        invariant |old(input)| >= k && input == old(input)[k..] && output == old(output) + old(input)[..k]
        invariant id == old(id) && cancelled == old(cancelled) && sent == old(sent)
      {
        var v := Passthrough(tys[k]);
        if v.Failure? {
          HasLayoutSplit(old(input), tys[..k], tys[k..]);
          assert tys[..k] + tys[k..] == tys;
          return Failure(v.error);
        }
        assert old(input)[..k + 1] == old(input)[..k] + [old(input)[k]];
        assert HasLayout(old(input), tys[..k + 1]) by {
          HasLayoutSplit(old(input), tys[..k], [tys[k]]);
          assert tys[..k] + [tys[k]] == tys[..k + 1];
        }
        k := k + 1;
      }
      assert tys[..k] == tys;
      r := Success(());
    }

    /** The `index`-th output field of type `t`. */
    method Get(t: FieldType, index: nat) returns (r: Result<Value>)
      ensures PositionOf(output, t, index).Some? ==> r == Success(output[PositionOf(output, t, index).value].value)
      ensures PositionOf(output, t, index).None? ==> r.Failure?
    {
      match PositionOf(output, t, index)
      case Some(p) => r := Success(output[p].value);
      case None => r := Failure("no such field");
    }

    /** Overwrites the value of the `index`-th output field of type `t`. */
    method Set(t: FieldType, index: nat, v: Value) returns (r: Result<()>)
      modifies this
      ensures PositionOf(old(output), t, index).Some? ==>
                r.Success? && output == old(output)[PositionOf(old(output), t, index).value := Field(t, v)]
      ensures PositionOf(old(output), t, index).None? ==> r.Failure? && output == old(output)
      ensures input == old(input) && id == old(id) && cancelled == old(cancelled) && sent == old(sent)
    {
      match PositionOf(output, t, index)
      case Some(p) =>
        output := output[p := Field(t, v)];
        r := Success(());
      case None =>
        r := Failure("no such field");
    }

    method SetId(newId: int)
      modifies this
      ensures id == newId
      ensures input == old(input) && output == old(output) && cancelled == old(cancelled) && sent == old(sent)
    {
      id := newId;
    }

    method Cancel()
      modifies this
      ensures cancelled
      ensures id == old(id) && input == old(input) && output == old(output) && sent == old(sent)
    {
      cancelled := true;
    }

    /** Creates a packet with the given id and fields and sends it ahead of this one. */
    method Send(packetId: int, fields: seq<Field>)
      modifies this
      ensures sent == old(sent) + [Packet(packetId, fields)]
      ensures id == old(id) && input == old(input) && output == old(output) && cancelled == old(cancelled)
    {
      sent := sent + [Packet(packetId, fields)];
    }
  }
}
