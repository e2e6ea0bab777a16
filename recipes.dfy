/** The walk over a declare-recipes packet shared by the 1.14 and 1.16 item translations: every recipe
  * body of a known kind is passed through field by field with its items rewritten for the client, and
  * the recipes are taken one after the other, each one's fields and outcome folded into the totals. */
module Recipes {
  import opened Wrappers
  import opened Bytes
  import opened Packets

  /** The recipe bodies the handlers walk; `NoBody` stands for every type they do not know, whose body
    * is left unread. */
  datatype RecipeKind = Shapeless | Shaped | Cooking | Stonecutting | NoBody

  /** The fields from index `at` of `fs` have the types `tys`. */
  predicate Typed(fs: seq<Field>, at: nat, tys: seq<FieldType>) {
    at + |tys| <= |fs| && forall i :: 0 <= i < |tys| ==> fs[at + i].ty == tys[i]
  }

  /** A single field is typed exactly when the remaining input starts with it. */
  lemma TypedOne(fs: seq<Field>, at: nat, t: FieldType)
    requires at <= |fs|
    ensures Typed(fs, at, [t]) <==> HasLayout(fs[at..], [t])
  {
    if HasLayout(fs[at..], [t]) {
      assert fs[at..][0] == fs[at + 0];
    }
  }

  /** `n` ingredient arrays, as a layout. */
  function Ingredients(n: nat): (r: seq<FieldType>)
    ensures |r| == n && forall i :: 0 <= i < n ==> r[i] == FlatVarIntItemArrayVarInt
  {
    seq(n, i => FlatVarIntItemArrayVarInt)
  }

  /** Rewriting a run of fields one by one; the first failure stops the run. */
  function RewriteFields(rewrite: Field -> Result<Field>, fs: seq<Field>): (r: Result<seq<Field>>)
    ensures r.Success? <==> forall i :: 0 <= i < |fs| ==> rewrite(fs[i]).Success?
    ensures r.Success? ==> |r.value| == |fs| && forall i :: 0 <= i < |fs| ==> r.value[i] == rewrite(fs[i]).value
  {
    if |fs| == 0 then Success([])
    else
      match RewriteFields(rewrite, fs[..|fs| - 1])
      case Failure(e) => Failure(e)
      case Success(init) =>
        match rewrite(fs[|fs| - 1])
        case Failure(e) => Failure(e)
        case Success(last) => Success(init + [last])
  }

  /** Rewriting one field more after a run that rewrote. */
  lemma RewriteFieldsNext(rewrite: Field -> Result<Field>, fs: seq<Field>, at: nat, k: nat)
    requires at + k < |fs| && RewriteFields(rewrite, fs[at..at + k]).Success?
    ensures RewriteFields(rewrite, fs[at..at + k + 1]).Success? <==> rewrite(fs[at + k]).Success?
    ensures RewriteFields(rewrite, fs[at..at + k + 1]).Success? ==>
            RewriteFields(rewrite, fs[at..at + k + 1]).value ==
            RewriteFields(rewrite, fs[at..at + k]).value + [rewrite(fs[at + k]).value]
  {
    var run := fs[at..at + k + 1];
    assert run[..|run| - 1] == fs[at..at + k] && run[|run| - 1] == fs[at + k];
  }

  /** Two runs rewrite together exactly when each rewrites on its own. */
  lemma RewriteFieldsAppendOk(rewrite: Field -> Result<Field>, y: seq<Field>, z: seq<Field>)
    ensures RewriteFields(rewrite, y + z).Success? <==>
            RewriteFields(rewrite, y).Success? && RewriteFields(rewrite, z).Success?
  {
    var x := y + z;
    if RewriteFields(rewrite, x).Success? {
      forall i | 0 <= i < |y| ensures rewrite(y[i]).Success? {
        assert x[i] == y[i];
      }
      forall i | 0 <= i < |z| ensures rewrite(z[i]).Success? {
        assert x[|y| + i] == z[i];
      }
    } else if RewriteFields(rewrite, y).Success? && RewriteFields(rewrite, z).Success? {
      forall i | 0 <= i < |x| ensures rewrite(x[i]).Success? {
        if i >= |y| {
          assert x[i] == z[i - |y|];
        }
      }
    }
  }

  /** What two runs rewrite to together is what each rewrites to, in order. */
  lemma RewriteFieldsAppendValue(rewrite: Field -> Result<Field>, y: seq<Field>, z: seq<Field>)
    requires RewriteFields(rewrite, y).Success? && RewriteFields(rewrite, z).Success?
    requires RewriteFields(rewrite, y + z).Success?
    ensures RewriteFields(rewrite, y + z).value == RewriteFields(rewrite, y).value + RewriteFields(rewrite, z).value
  {
    var x, rx, ry, rz := y + z, RewriteFields(rewrite, y + z), RewriteFields(rewrite, y), RewriteFields(rewrite, z);
    forall i | 0 <= i < |x|
      ensures rx.value[i] == (ry.value + rz.value)[i]
    {
      if i >= |y| {
        assert x[i] == z[i - |y|];
      }
    }
  }

  /** Rewriting two adjacent runs is rewriting the run they make up. */
  lemma RewriteFieldsSplit(rewrite: Field -> Result<Field>, fs: seq<Field>, a: nat, b: nat, c: nat)
    requires a <= b <= c <= |fs|
    ensures RewriteFields(rewrite, fs[a..c]).Success? <==>
            RewriteFields(rewrite, fs[a..b]).Success? && RewriteFields(rewrite, fs[b..c]).Success?
    ensures RewriteFields(rewrite, fs[a..c]).Success? ==>
            RewriteFields(rewrite, fs[a..c]).value == RewriteFields(rewrite, fs[a..b]).value + RewriteFields(rewrite, fs[b..c]).value
  {
    assert fs[a..c] == fs[a..b] + fs[b..c];
    RewriteFieldsAppendOk(rewrite, fs[a..b], fs[b..c]);
    if RewriteFields(rewrite, fs[a..c]).Success? {
      RewriteFieldsAppendValue(rewrite, fs[a..b], fs[b..c]);
    }
  }

  /** A layout is its first part followed by the rest. */
  lemma TypedSplit(fs: seq<Field>, at: nat, head: seq<FieldType>, tail: seq<FieldType>)
    ensures Typed(fs, at, head + tail) <==> Typed(fs, at, head) && Typed(fs, at + |head|, tail)
  {
    if Typed(fs, at, head) && Typed(fs, at + |head|, tail) {
      forall i | 0 <= i < |head + tail|
        ensures fs[at + i].ty == (head + tail)[i]
      {
        if i >= |head| {
          assert fs[at + |head| + (i - |head|)].ty == tail[i - |head|];
        }
      }
    }
    if Typed(fs, at, head + tail) {
      forall i | 0 <= i < |head|
        ensures fs[at + i].ty == head[i]
      {
        assert (head + tail)[i] == head[i];
      }
      forall i | 0 <= i < |tail|
        ensures fs[at + |head| + i].ty == tail[i]
      {
        assert (head + tail)[|head| + i] == tail[i];
      }
    }
  }

  /** The count a shaped recipe's ingredient loop runs: width times height as a Java `int`, none when negative. */
  function ShapedCount(width: int, height: int): (r: nat)
    ensures 0 <= width * height < TWO_31 ==> r == width * height
  {
    var n := ToInt32((width * height) % TWO_32);
    if n < 0 then 0 else n
  }

  /** The layout of a recipe body starting at index `at` of `fs`, once its counts are known; `None` when
    * a count field is missing or not an int. */
  function BodyLayout(fs: seq<Field>, at: nat, kind: RecipeKind): (r: Option<seq<FieldType>>)
    requires at <= |fs|
  {
    match kind
    case NoBody => Some([])
    case Cooking => Some([Str, FlatVarIntItemArrayVarInt, FlatVarIntItem, Float, VarInt])
    case Stonecutting => Some([Str, FlatVarIntItemArrayVarInt, FlatVarIntItem])
    case Shapeless =>
      if Typed(fs, at, [Str, VarInt]) && fs[at + 1].value.IntV? then
        var n := fs[at + 1].value.n;
        Some([Str, VarInt] + Ingredients(if n < 0 then 0 else n) + [FlatVarIntItem])
      else None
    case Shaped =>
      if Typed(fs, at, [VarInt, VarInt]) && fs[at].value.IntV? && fs[at + 1].value.IntV? then
        Some([VarInt, VarInt, Str] + Ingredients(ShapedCount(fs[at].value.n, fs[at + 1].value.n)) + [FlatVarIntItem])
      else None
  }

  /** Where the body of a recipe of kind `kind` starting at index `at` of `fs` ends; `None` when the
    * fields there do not have its layout. */
  function BodyEnd(fs: seq<Field>, at: nat, kind: RecipeKind): (r: Option<nat>)
    requires at <= |fs|
    ensures r.Some? ==> at <= r.value <= |fs|
    ensures kind == NoBody ==> r == Some(at)
    ensures kind == Cooking ==> (r.Some? <==> Typed(fs, at, [Str, FlatVarIntItemArrayVarInt, FlatVarIntItem, Float, VarInt]))
  {
    match BodyLayout(fs, at, kind)
    case None => None
    case Some(tys) => if Typed(fs, at, tys) then Some(at + |tys|) else None
  }

  /** Takes the next field, which must be of type `t`, and writes what `rewrite` makes of it. */
  method RewriteNext(w: PacketWrapper, t: FieldType, rewrite: Field -> Result<Field>) returns (r: Result<Value>)
    modifies w
    ensures r.Success? <==> HasLayout(old(w.input), [t]) && rewrite(old(w.input)[0]).Success?
    ensures r.Success? ==>
      r.value == old(w.input)[0].value && w.input == old(w.input)[1..] &&
      w.output == old(w.output) + [rewrite(old(w.input)[0]).value]
    ensures w.id == old(w.id) && w.cancelled == old(w.cancelled) && w.sent == old(w.sent)
  {
    var v :- w.Read(t);
    var f :- rewrite(Field(t, v));
    w.Write(f.ty, f.value);
    r := Success(v);
  }

  /** Passes field `k` of a run from index `at` of `fs` after the `k` before it. */
  method PassOne(w: PacketWrapper, ghost fs: seq<Field>, ghost at: nat, ghost k: nat, t: FieldType,
                 rewrite: Field -> Result<Field>, ghost base: seq<Field>) returns (r: Result<Value>)
    modifies w
    requires at + k <= |fs| && RewriteFields(rewrite, fs[at..at + k]).Success?
    requires w.input == fs[at + k..] && w.output == base + RewriteFields(rewrite, fs[at..at + k]).value
    ensures r.Success? <==> at + k < |fs| && fs[at + k].ty == t && rewrite(fs[at + k]).Success?
    ensures r.Success? ==>
      r.value == fs[at + k].value && w.input == fs[at + k + 1..] &&
      RewriteFields(rewrite, fs[at..at + k + 1]).Success? &&
      w.output == base + RewriteFields(rewrite, fs[at..at + k + 1]).value
    ensures w.id == old(w.id) && w.cancelled == old(w.cancelled) && w.sent == old(w.sent)
  {
    var step := RewriteNext(w, t, rewrite);
    if step.Failure? {
      return Failure(step.error);
    }
    RewriteFieldsNext(rewrite, fs, at, k);
    r := Success(step.value);
  }

  /** Passes the fields of layout `tys` from index `at` of `fs` through `rewrite`. */
  method PassFields(w: PacketWrapper, ghost fs: seq<Field>, ghost at: nat, tys: seq<FieldType>,
                    rewrite: Field -> Result<Field>) returns (r: Result<seq<Value>>)
    modifies w
    requires at <= |fs| && w.input == fs[at..]
    ensures r.Success? <==> Typed(fs, at, tys) && RewriteFields(rewrite, fs[at..at + |tys|]).Success?
    ensures r.Success? ==>
      w.input == fs[at + |tys|..] && w.output == old(w.output) + RewriteFields(rewrite, fs[at..at + |tys|]).value
    ensures r.Success? ==> |r.value| == |tys| && forall i :: 0 <= i < |tys| ==> r.value[i] == fs[at + i].value
    ensures w.id == old(w.id) && w.cancelled == old(w.cancelled) && w.sent == old(w.sent)
  {
    ghost var out := w.output;
    var k := 0;
    var values := [];
    while k < |tys|
      invariant 0 <= k <= |tys| && at + k <= |fs|
      invariant |values| == k && forall i :: 0 <= i < k ==> values[i] == fs[at + i].value
      invariant forall i :: 0 <= i < k ==> fs[at + i].ty == tys[i]
      invariant RewriteFields(rewrite, fs[at..at + k]).Success?
      invariant w.input == fs[at + k..] && w.output == out + RewriteFields(rewrite, fs[at..at + k]).value
      invariant w.id == old(w.id) && w.cancelled == old(w.cancelled) && w.sent == old(w.sent)
    {
      var step := PassOne(w, fs, at, k, tys[k], rewrite, out);
      if step.Failure? {
        if Typed(fs, at, tys) {
          assert fs[at..at + |tys|][k] == fs[at + k];
        }
        return Failure(step.error);
      }
      values := values + [step.value];
      k := k + 1;
    }
    r := Success(values);
  }

  /** A recipe body once passed: where it ends and the fields written for it. */
  datatype Body = Body(end: nat, out: seq<Field>)

  /** The body of a recipe of kind `kind` from index `at` of `fs`: `None` when the fields there do not
    * have its layout or one of them does not rewrite. */
  function RewriteBody(rewrite: Field -> Result<Field>, fs: seq<Field>, at: nat, kind: RecipeKind): (r: Option<Body>)
    requires at <= |fs|
    ensures r.Some? <==> BodyEnd(fs, at, kind).Some? && RewriteFields(rewrite, fs[at..BodyEnd(fs, at, kind).value]).Success?
    ensures r.Some? ==> r.value.end == BodyEnd(fs, at, kind).value && at <= r.value.end <= |fs| &&
                        r.value.out == RewriteFields(rewrite, fs[at..r.value.end]).value
  {
    match BodyEnd(fs, at, kind)
    case None => None
    case Some(e) =>
      match RewriteFields(rewrite, fs[at..e])
      case Failure(_) => None
      case Success(out) => Some(Body(e, out))
  }

  /** Passes the body of a recipe of kind `kind` starting at index `at` of `fs`, rewriting its fields. */
  method PassBody(w: PacketWrapper, ghost fs: seq<Field>, ghost at: nat, kind: RecipeKind,
                  rewrite: Field -> Result<Field>) returns (r: Result<()>)
    modifies w
    requires at <= |fs| && w.input == fs[at..]
    ensures r.Success? <==> RewriteBody(rewrite, fs, at, kind).Some?
    ensures r.Success? ==>
      var b := RewriteBody(rewrite, fs, at, kind).value;
      w.input == fs[b.end..] && w.output == old(w.output) + b.out
    ensures w.id == old(w.id) && w.cancelled == old(w.cancelled) && w.sent == old(w.sent)
  {
    match kind
    case NoBody =>
      assert fs[at..at] == [];
      r := Success(());
    case Cooking =>
      var fields :- PassFields(w, fs, at, [Str, FlatVarIntItemArrayVarInt, FlatVarIntItem, Float, VarInt], rewrite);
      r := Success(());
    case Stonecutting =>
      var fields :- PassFields(w, fs, at, [Str, FlatVarIntItemArrayVarInt, FlatVarIntItem], rewrite);
      r := Success(());
    case Shapeless =>
      r := PassShapeless(w, fs, at, rewrite);
    case Shaped =>
      r := PassShaped(w, fs, at, rewrite);
  }

  /** A shapeless body: group, ingredient count, that many ingredient arrays, result. */
  method PassShapeless(w: PacketWrapper, ghost fs: seq<Field>, ghost at: nat,
                       rewrite: Field -> Result<Field>) returns (r: Result<()>)
    modifies w
    requires at <= |fs| && w.input == fs[at..]
    ensures r.Success? <==>
      BodyEnd(fs, at, Shapeless).Some? && RewriteFields(rewrite, fs[at..BodyEnd(fs, at, Shapeless).value]).Success?
    ensures r.Success? ==>
      var e := BodyEnd(fs, at, Shapeless).value;
      w.input == fs[e..] && w.output == old(w.output) + RewriteFields(rewrite, fs[at..e]).value
    ensures w.id == old(w.id) && w.cancelled == old(w.cancelled) && w.sent == old(w.sent)
  {
    var head := PassFields(w, fs, at, [Str, VarInt], rewrite);
    if head.Failure? {
      HeadFails(rewrite, fs, at, Shapeless);
      return Failure(head.error);
    }
    var count := head.value[1];
    assert count == fs[at + 1].value;
    if !count.IntV? {
      assert BodyLayout(fs, at, Shapeless).None?;
      return Failure("ingredient count is not an int");
    }
    var n := if count.n < 0 then 0 else count.n;
    ShapelessEnd(fs, at, Ingredients(n) + [FlatVarIntItem]);
    r := PassRest(w, fs, at, [Str, VarInt], Ingredients(n) + [FlatVarIntItem], rewrite, old(w.output));
  }

  /** The two fields a counted body starts with: group and ingredient count for a shapeless one, width and
    * height for a shaped one. */
  function CountedHead(kind: RecipeKind): seq<FieldType> {
    if kind == Shapeless then [Str, VarInt] else [VarInt, VarInt]
  }

  /** A counted body whose two leading fields do not pass cannot pass as a whole. */
  lemma HeadFails(rewrite: Field -> Result<Field>, fs: seq<Field>, at: nat, kind: RecipeKind)
    requires at <= |fs| && (kind == Shapeless || kind == Shaped)
    requires !(Typed(fs, at, CountedHead(kind)) && RewriteFields(rewrite, fs[at..at + 2]).Success?)
    ensures !(BodyEnd(fs, at, kind).Some? && RewriteFields(rewrite, fs[at..BodyEnd(fs, at, kind).value]).Success?)
  {
    if BodyEnd(fs, at, kind).Some? {
      var tys := BodyLayout(fs, at, kind).value;
      var head := CountedHead(kind);
      assert tys[0] == head[0] && tys[1] == head[1];
      assert Typed(fs, at, head) by {
        assert fs[at + 0].ty == tys[0] && fs[at + 1].ty == tys[1];
      }
      RewriteFieldsSplit(rewrite, fs, at, at + 2, BodyEnd(fs, at, kind).value);
    }
  }

  /** Once the ingredient count is known, a shapeless body ends where its whole layout does. */
  lemma ShapelessEnd(fs: seq<Field>, at: nat, tail: seq<FieldType>)
    requires Typed(fs, at, [Str, VarInt]) && fs[at + 1].value.IntV?
    requires tail == Ingredients(if fs[at + 1].value.n < 0 then 0 else fs[at + 1].value.n) + [FlatVarIntItem]
    ensures BodyEnd(fs, at, Shapeless) ==
            if Typed(fs, at, [Str, VarInt] + tail) then Some(at + |[Str, VarInt] + tail|) else None
  {
    var n := if fs[at + 1].value.n < 0 then 0 else fs[at + 1].value.n;
    assert [Str, VarInt] + tail == [Str, VarInt] + Ingredients(n) + [FlatVarIntItem];
  }

  /** A shaped body: width, height, group, width times height ingredient arrays, result. */
  method PassShaped(w: PacketWrapper, ghost fs: seq<Field>, ghost at: nat,
                    rewrite: Field -> Result<Field>) returns (r: Result<()>)
    modifies w
    requires at <= |fs| && w.input == fs[at..]
    ensures r.Success? <==>
      BodyEnd(fs, at, Shaped).Some? && RewriteFields(rewrite, fs[at..BodyEnd(fs, at, Shaped).value]).Success?
    ensures r.Success? ==>
      var e := BodyEnd(fs, at, Shaped).value;
      w.input == fs[e..] && w.output == old(w.output) + RewriteFields(rewrite, fs[at..e]).value
    ensures w.id == old(w.id) && w.cancelled == old(w.cancelled) && w.sent == old(w.sent)
  {
    var head := PassFields(w, fs, at, [VarInt, VarInt], rewrite);
    if head.Failure? {
      HeadFails(rewrite, fs, at, Shaped);
      return Failure(head.error);
    }
    var width, height := head.value[0], head.value[1];
    assert width == fs[at].value && height == fs[at + 1].value by {
      assert head.value[0] == fs[at + 0].value;
    }
    if !width.IntV? || !height.IntV? {
      assert BodyLayout(fs, at, Shaped).None?;
      return Failure("shape is not an int");
    }
    var tail := [Str] + Ingredients(ShapedCount(width.n, height.n)) + [FlatVarIntItem];
    ShapedEnd(fs, at, tail);
    r := PassRest(w, fs, at, [VarInt, VarInt], tail, rewrite, old(w.output));
  }

  /** Once width and height are known, a shaped body ends where its whole layout does. */
  lemma ShapedEnd(fs: seq<Field>, at: nat, tail: seq<FieldType>)
    requires Typed(fs, at, [VarInt, VarInt]) && fs[at].value.IntV? && fs[at + 1].value.IntV?
    requires tail == [Str] + Ingredients(ShapedCount(fs[at].value.n, fs[at + 1].value.n)) + [FlatVarIntItem]
    ensures BodyEnd(fs, at, Shaped) ==
            if Typed(fs, at, [VarInt, VarInt] + tail) then Some(at + |[VarInt, VarInt] + tail|) else None
  {
    var n := ShapedCount(fs[at].value.n, fs[at + 1].value.n);
    assert [VarInt, VarInt] + tail == [VarInt, VarInt, Str] + Ingredients(n) + [FlatVarIntItem];
  }

  /** Passes the rest `tail` of a layout whose first part `head` has already been passed. */
  method PassRest(w: PacketWrapper, ghost fs: seq<Field>, ghost at: nat, ghost head: seq<FieldType>,
                  tail: seq<FieldType>, rewrite: Field -> Result<Field>, ghost base: seq<Field>) returns (r: Result<()>)
    modifies w
    requires Typed(fs, at, head) && RewriteFields(rewrite, fs[at..at + |head|]).Success?
    requires w.input == fs[at + |head|..] && w.output == base + RewriteFields(rewrite, fs[at..at + |head|]).value
    ensures r.Success? <==> Typed(fs, at, head + tail) && RewriteFields(rewrite, fs[at..at + |head + tail|]).Success?
    ensures r.Success? ==>
      w.input == fs[at + |head + tail|..] && w.output == base + RewriteFields(rewrite, fs[at..at + |head + tail|]).value
    ensures w.id == old(w.id) && w.cancelled == old(w.cancelled) && w.sent == old(w.sent)
  {
    var fields := PassFields(w, fs, at + |head|, tail, rewrite);
    if fields.Failure? {
      RestFails(rewrite, fs, at, head, tail);
      return Failure(fields.error);
    }
    RestJoined(rewrite, fs, at, head, tail, base, w.output);
    r := Success(());
  }

  /** A layout's rest that does not pass leaves the whole layout not passing. */
  lemma RestFails(rewrite: Field -> Result<Field>, fs: seq<Field>, at: nat, head: seq<FieldType>, tail: seq<FieldType>)
    requires Typed(fs, at, head) && RewriteFields(rewrite, fs[at..at + |head|]).Success?
    requires !(Typed(fs, at + |head|, tail) && RewriteFields(rewrite, fs[at + |head|..at + |head| + |tail|]).Success?)
    ensures !(Typed(fs, at, head + tail) && RewriteFields(rewrite, fs[at..at + |head + tail|]).Success?)
  {
    TypedSplit(fs, at, head, tail);
    if Typed(fs, at, head + tail) {
      RewriteFieldsSplit(rewrite, fs, at, at + |head|, at + |head| + |tail|);
    }
  }

  /** A layout's first part and rest, each passed, make up the whole layout passed. */
  lemma RestJoined(rewrite: Field -> Result<Field>, fs: seq<Field>, at: nat, head: seq<FieldType>, tail: seq<FieldType>,
                   base: seq<Field>, out: seq<Field>)
    requires Typed(fs, at, head) && RewriteFields(rewrite, fs[at..at + |head|]).Success?
    requires Typed(fs, at + |head|, tail) && RewriteFields(rewrite, fs[at + |head|..at + |head| + |tail|]).Success?
    requires out == base + RewriteFields(rewrite, fs[at..at + |head|]).value +
                    RewriteFields(rewrite, fs[at + |head|..at + |head| + |tail|]).value
    ensures Typed(fs, at, head + tail) && RewriteFields(rewrite, fs[at..at + |head + tail|]).Success?
    ensures out == base + RewriteFields(rewrite, fs[at..at + |head + tail|]).value
  {
    TypedSplit(fs, at, head, tail);
    RewriteFieldsSplit(rewrite, fs, at, at + |head|, at + |head| + |tail|);
    AppendAssoc(base, RewriteFields(rewrite, fs[at..at + |head|]).value,
                RewriteFields(rewrite, fs[at + |head|..at + |head| + |tail|]).value);
  }

  /** What one recipe contributes: where it ends, how many recipes it removed (0 or 1), and the fields
    * written for it. */
  datatype Step = Step(end: nat, deleted: nat, out: seq<Field>)

  /** Folds the outcome of the remaining recipes into what the earlier ones contributed. */
  function Then(done: Step, rest: Option<Step>): (r: Option<Step>)
    ensures r.Some? <==> rest.Some?
    ensures r.Some? ==> r.value.end == rest.value.end && r.value.deleted == done.deleted + rest.value.deleted &&
                        r.value.out == done.out + rest.value.out
  {
    match rest
    case None => None
    case Some(s) => Some(Step(s.end, done.deleted + s.deleted, done.out + s.out))
  }

  /** Nothing done yet leaves the outcome of the remaining recipes as it is. */
  lemma ThenNothing(rest: Option<Step>)
    ensures Then(Step(0, 0, []), rest) == rest
  {
    if rest.Some? {
      assert [] + rest.value.out == rest.value.out;
    }
  }

  /** `count` recipes from index `at`, each read by `recipe`, their outcomes folded in order; a recipe that
    * cannot be read fails the whole list. */
  function Steps(recipe: nat -> Option<Step>, at: nat, count: int): Option<Step>
    decreases count
  {
    if count <= 0 then Some(Step(at, 0, []))
    else
      match recipe(at)
      case None => None
      case Some(s) => Then(s, Steps(recipe, s.end, count - 1))
  }

  /** When every recipe ends after it starts, no later than `bound`, and removes at most one recipe, a list
    * of `count` recipes removes at most `count` and, unless empty, ends between its start and `bound`. */
  lemma {:induction false} StepsBounded(recipe: nat -> Option<Step>, at: nat, count: int, bound: nat)
    requires forall a: nat :: recipe(a).Some? ==> a <= recipe(a).value.end <= bound && recipe(a).value.deleted <= 1
    ensures Steps(recipe, at, count).Some? ==> Steps(recipe, at, count).value.deleted <= (if count < 0 then 0 else count)
    ensures Steps(recipe, at, count).Some? && count > 0 ==> at <= Steps(recipe, at, count).value.end <= bound
    decreases count
  {
    if count > 0 && recipe(at).Some? {
      StepsBounded(recipe, recipe(at).value.end, count - 1, bound);
    }
  }

  /** A list's outcome `whole` is what the recipes done so far contributed, followed by the `left` recipes
    * from index `pos`. */
  ghost predicate Folded(recipe: nat -> Option<Step>, whole: Option<Step>, done: Step, pos: nat, left: int) {
    whole == Then(done, Steps(recipe, pos, left))
  }

  /** Before any recipe is handled, the fold is the whole list. */
  lemma FoldedStart(recipe: nat -> Option<Step>, at: nat, count: int)
    ensures Folded(recipe, Steps(recipe, at, count), Step(0, 0, []), at, count)
  {
    ThenNothing(Steps(recipe, at, count));
  }

  /** Handling the recipe at `pos` moves the fold one recipe on. */
  lemma FoldedStep(recipe: nat -> Option<Step>, whole: Option<Step>, done: Step, pos: nat, left: int,
                   s: Step, done': Step, left': int)
    requires left > 0 && recipe(pos) == Some(s) && Folded(recipe, whole, done, pos, left)
    requires done' == Step(0, done.deleted + s.deleted, done.out + s.out) && left' == left - 1
    ensures Folded(recipe, whole, done', s.end, left')
  {
    var rest := Steps(recipe, s.end, left');
    if rest.Some? {
      AppendAssoc(done.out, s.out, rest.value.out);
    }
  }

  /** A recipe that cannot be read fails the whole list. */
  lemma FoldedFail(recipe: nat -> Option<Step>, whole: Option<Step>, done: Step, pos: nat, left: int)
    requires left > 0 && recipe(pos).None? && Folded(recipe, whole, done, pos, left)
    ensures whole.None?
  {
  }

  /** Once no recipe is left, the fold is the whole list's outcome. */
  lemma FoldedDone(recipe: nat -> Option<Step>, whole: Option<Step>, done: Step, pos: nat, left: int)
    requires left <= 0 && Folded(recipe, whole, done, pos, left)
    ensures whole == Some(Step(pos, done.deleted, done.out))
  {
    assert done.out + [] == done.out;
  }
}
