/** Pieces of the 1.8 to 1.9 translation: the repair of legacy chat strings into JSON text components, the
  * sword test used by the blocking emulation, and the connection storage the translation sets up. */
module Protocol1_9 {
  import opened Wrappers
  import opened Components1_20_3
  import Connections

  /** The JSON text of an empty text component. */
  const EmptyTextLine: string := "{\"text\":\"\"}"

  /** `constructJson`: an object whose only member `text` is the given string. */
  function ConstructJson(text: string): (r: Json)
    ensures r.JObject? && r.members.Keys == {"text"} && r.members["text"] == JString(text)
  {
    JObject(map["text" := JString(text)])
  }

  /** The empty text component. */
  function EmptyText(): Json {
    ConstructJson("")
  }

  /** The JSON parser (Gson reading a `JsonObject`) is a parameter of the model; `None` is a parse error.
    * All the model asks of it is that it reads the empty text component's own text correctly. */
  ghost predicate ParsesEmptyText(parse: string -> Option<Json>) {
    parse(EmptyTextLine) == Some(EmptyText())
  }

  /** `equalsIgnoreCase("null")`. */
  predicate IsNullWord(s: string) {
    |s| == 4 && s[0] in "nN" && s[1] in "uU" && s[2] in "lL" && s[3] in "lL"
  }

  /** Starts and ends with a double quote (a single quote character does both). */
  predicate Quoted(s: string) {
    |s| >= 1 && s[0] == '"' && s[|s| - 1] == '"'
  }

  /** Starts with `{` and ends with `}`. */
  predicate Braced(s: string) {
    |s| >= 1 && s[0] == '{' && s[|s| - 1] == '}'
  }

  /** The JSON text a quoted string is wrapped into before parsing. */
  function WrapQuoted(s: string): string {
    "{\"text\":" + s + "}"
  }

  /** Parsing `line`, with the fallback for a parse error: the line itself as plain text when JSON
    * transformation is forced, else the parsed empty text component (whose parse error is not caught). */
  function ParseOrFallback(parse: string -> Option<Json>, force: bool, line: string): (r: Result<Json>)
    ensures parse(line).Some? ==> r == Success(parse(line).value)
    ensures parse(line).None? && force ==> r == Success(ConstructJson(line))
    ensures ParsesEmptyText(parse) && parse(line).None? && !force ==> r == Success(EmptyText())
    ensures ParsesEmptyText(parse) ==> r.Success?
  {
    match parse(line)
    case Some(j) => Success(j)
    case None =>
      if force then Success(ConstructJson(line))
      else
        match parse(EmptyTextLine)
        case Some(j) => Success(j)
        case None => Failure("invalid JSON")
  }

  /** `fixJson`: a missing line or the word null becomes the empty text component; a line that is
    * neither quoted nor braced becomes plain text without being parsed; a quoted line is parsed as the
    * `text` member of an object, a braced line as it stands. */
  function FixJson(parse: string -> Option<Json>, force: bool, line: Option<string>): (r: Result<Json>)
    ensures r.Failure? ==> !force && parse(EmptyTextLine).None?
  {
    if line.None? || IsNullWord(line.value) then ParseOrFallback(parse, force, EmptyTextLine)
    else if !Quoted(line.value) && !Braced(line.value) then Success(ConstructJson(line.value))
    else if Quoted(line.value) then ParseOrFallback(parse, force, WrapQuoted(line.value))
    else ParseOrFallback(parse, force, line.value)
  }

  /** A missing line and the word null, in any letter case, both give the empty text component. */
  lemma FixJsonNull(parse: string -> Option<Json>, force: bool, line: Option<string>)
    requires ParsesEmptyText(parse)
    requires line.None? || IsNullWord(line.value)
    ensures FixJson(parse, force, line) == Success(EmptyText())
  {
  }

  /** A line that is neither quoted nor braced becomes plain text, whatever the parser would say. */
  lemma FixJsonPlain(parse: string -> Option<Json>, other: string -> Option<Json>, force: bool, s: string)
    requires !IsNullWord(s) && !Quoted(s) && !Braced(s)
    ensures FixJson(parse, force, Some(s)) == Success(ConstructJson(s))
    ensures FixJson(parse, force, Some(s)) == FixJson(other, !force, Some(s))
  {
  }

  /** A quoted line is parsed as the `text` member of an object. If that fails, forcing makes the wrapped
    * text itself (not the original line) the plain text; otherwise the result is the empty component. */
  lemma FixJsonQuoted(parse: string -> Option<Json>, force: bool, s: string)
    requires ParsesEmptyText(parse)
    requires Quoted(s)
    ensures parse(WrapQuoted(s)).Some? ==> FixJson(parse, force, Some(s)) == Success(parse(WrapQuoted(s)).value)
    ensures parse(WrapQuoted(s)).None? ==>
      FixJson(parse, force, Some(s)) == Success(if force then ConstructJson(WrapQuoted(s)) else EmptyText())
  {
    assert !IsNullWord(s);
  }

  /** A braced line is parsed as it stands, with the same fallback. */
  lemma FixJsonBraced(parse: string -> Option<Json>, force: bool, s: string)
    requires ParsesEmptyText(parse)
    requires Braced(s)
    ensures parse(s).Some? ==> FixJson(parse, force, Some(s)) == Success(parse(s).value)
    ensures parse(s).None? ==> FixJson(parse, force, Some(s)) == Success(if force then ConstructJson(s) else EmptyText())
  {
    assert !IsNullWord(s) && !Quoted(s);
  }

  /** `fixJson` never fails once the parser reads the empty component, and its result is always either
    * something the parser produced or a plain-text object. */
  lemma FixJsonTotal(parse: string -> Option<Json>, force: bool, line: Option<string>)
    requires ParsesEmptyText(parse)
    ensures FixJson(parse, force, line).Success?
    ensures var j := FixJson(parse, force, line).value;
      (exists t :: parse(t) == Some(j)) || (exists t :: j == ConstructJson(t))
  {
    var j := FixJson(parse, force, line).value;
    if line.None? || IsNullWord(line.value) {
      assert parse(EmptyTextLine) == Some(j);
    } else if !Quoted(line.value) && !Braced(line.value) {
      assert j == ConstructJson(line.value);
    } else {
      var t := if Quoted(line.value) then WrapQuoted(line.value) else line.value;
      if parse(t).Some? {
        assert parse(t) == Some(j);
      } else if force {
        assert j == ConstructJson(t);
      } else {
        assert parse(EmptyTextLine) == Some(j);
      }
    }
  }

  /** `isSword`: the iron, wooden, stone, diamond and golden sword ids. */
  function IsSword(id: int): (r: bool)
    ensures r <==> id in {267, 268, 272, 276, 283}
  {
    if id == 267 then true
    else if id == 268 then true
    else if id == 272 then true
    else if id == 276 then true
    else if id == 283 then true
    else false
  }

  /** The classes of the objects `init` stores, in the order it stores them. */
  const Trackers: seq<string> := ["EntityTracker1_9", "ClientChunks", "MovementTracker", "InventoryTracker",
                                  "PlaceBlockTracker", "CommandBlockStorage"]

  /** The storage after `init`: one new object per tracker class, created in the order of `Trackers`. */
  function Initialized(storage: map<string, Connections.Stored>, serial: nat): map<string, Connections.Stored> {
    storage[Trackers[0] := Connections.Stored(Trackers[0], serial)]
           [Trackers[1] := Connections.Stored(Trackers[1], serial + 1)]
           [Trackers[2] := Connections.Stored(Trackers[2], serial + 2)]
           [Trackers[3] := Connections.Stored(Trackers[3], serial + 3)]
           [Trackers[4] := Connections.Stored(Trackers[4], serial + 4)]
           [Trackers[5] := Connections.Stored(Trackers[5], serial + 5)]
  }

  /** After `init` every tracker class holds the object created for it, each newer than what was there
    * before, and the objects of all other classes are untouched. */
  lemma InitializedStores(storage: map<string, Connections.Stored>, serial: nat)
    ensures Initialized(storage, serial).Keys == storage.Keys + set c | c in Trackers
    ensures forall i :: 0 <= i < |Trackers| ==>
      Initialized(storage, serial)[Trackers[i]] == Connections.Stored(Trackers[i], serial + i)
    ensures forall c :: c in storage && c !in Trackers ==> Initialized(storage, serial)[c] == storage[c]
  {
  }

  /** `init`: stores a new entity tracker, chunk tracker, movement tracker, inventory tracker, place-block
    * tracker and command-block storage, each replacing an older object of its class. */
  method Init(connection: Connections.UserConnection)
    modifies connection
    ensures connection.created == old(connection.created) + |Trackers|
    ensures connection.storage == Initialized(old(connection.storage), old(connection.created))
  {
    connection.PutNew("EntityTracker1_9");
    connection.PutNew("ClientChunks");
    connection.PutNew("MovementTracker");
    connection.PutNew("InventoryTracker");
    connection.PutNew("PlaceBlockTracker");
    connection.PutNew("CommandBlockStorage");
  }
}
