/** JSON values. Objects are maps: member order and repeated names are not modelled. */
module Json {
  import opened Wrappers

  /** Member names: the ones the gateway reads or writes, and all others. */
  datatype Key =
    | Id | Object | Model | Created | Usage | Choices | Index | FinishReason | Message | Delta | Role | Content
    | Reasoning | ReasoningContent | ToolCalls | Type | Function | Name | Arguments | Messages | Prompt | Text
    | Named(name: string)

  datatype Json =
    | Null
    | Bool(b: bool)
    | Int(n: int)
    | Frac(text: string)
    | Str(s: string)
    | Arr(items: seq<Json>)
    | Obj(fields: map<Key, Json>)
  {
    /** A member of an object; None when this is no object or has no such member. */
    function Member(k: Key): Option<Json> {
      if Obj? && k in fields then Some(fields[k]) else None
    }

    /** Go's reading of a missing member as nil. */
    function MemberOrNull(k: Key): Json {
      if Obj? && k in fields then fields[k] else Null
    }
  }
}
