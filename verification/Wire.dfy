/** Request bodies as the bench reads them from a capture: JSON values, messages and bodies. */
module Wire {

  datatype Option<+T> = None | Some(value: T)

  ghost predicate Distinct<T>(xs: seq<T>) {
    forall i, j :: 0 <= i < j < |xs| ==> xs[i] != xs[j]
  }

  /** The object keys the bench looks at; every other key is carried by its own name. */
  datatype Field =
    | CacheControl
    | Type
    | TextField
    | ContentField
    | ToolUseId
    | Id
    | Name
    | Ttl
    | Other(name: string)

  /** A parsed JSON value. Objects are maps, so two serialisations of one object are one value,
      which is what sorting the keys before hashing achieves. */
  datatype Json =
    | Null
    | Bool(b: bool)
    | Num(n: real)
    | Str(s: string)
    | Arr(items: seq<Json>)
    | Obj(fields: map<Field, Json>)

  /** The `content` of a message, and the `system` of a body: missing, a bare string, or blocks. */
  datatype Content = Absent | Text(text: string) | Blocks(blocks: seq<Json>)

  datatype Message = Message(role: string, content: Content)

  datatype Body = Body(model: string, tools: seq<Json>, system: Content, messages: seq<Message>)

  /** `block.get(key)`: a missing key and a JSON null read alike. */
  function Get(block: Json, key: Field): Json {
    if block.Obj? && key in block.fields then block.fields[key] else Null
  }

  /** The block a bare string stands for. */
  function TextBlock(text: string): Json {
    Obj(map[Type := Str("text"), TextField := Str(text)])
  }

  /** The `cache_control` value the strategies write. */
  function Ephemeral(ttl: string): Json {
    Obj(map[Type := Str("ephemeral"), Ttl := Str(ttl)])
  }

  /** Only an object under `cache_control` makes a marker. */
  predicate Marked(block: Json) {
    Get(block, CacheControl).Obj?
  }

  /** A block with its `cache_control` popped, whatever the value under that key. */
  function Unmark(block: Json): Json {
    if block.Obj? then Obj(block.fields - {CacheControl}) else block
  }

  /** A block with `cache_control` assigned. */
  function Mark(block: Json, control: Json): Json
    requires block.Obj?
  {
    Obj(block.fields[CacheControl := control])
  }

  /** No block holds a `cache_control` that is not an object. Such a value is not a marker to the
      cache, so it counts as content. */
  predicate WellFormed(block: Json) {
    block.Obj? && CacheControl in block.fields ==> block.fields[CacheControl].Obj?
  }

  lemma {:induction false} UnmarkMark(block: Json, control: Json)
    requires block.Obj?
    ensures Unmark(Mark(block, control)) == Unmark(block)
  {
    assert Mark(block, control).fields - {CacheControl} == block.fields - {CacheControl};
  }

  lemma {:induction false} UnmarkIdempotent(block: Json)
    ensures Unmark(Unmark(block)) == Unmark(block)
    ensures !Marked(Unmark(block))
  {
    if block.Obj? {
      assert block.fields - {CacheControl} - {CacheControl} == block.fields - {CacheControl};
    }
  }
}
