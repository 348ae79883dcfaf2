/** Provider-independent content shared by collected messages and replayed history. */
module Domain {
  import opened Prelude

  type u32 = n: int | 0 <= n <= 0xFFFF_FFFF

  datatype ToolCall = ToolCall(id: Bytes, name: Bytes, arguments: Bytes)

  /** Image and opaque reasoning payloads are carried, never looked into. */
  datatype ContentPart =
    | Text(text: Bytes)
    | Image(image: Bytes)
    | Thinking(thinking: Bytes, sealed: Option<Bytes>)
    | Refusal(refusal: Bytes)
    | ToolCallPart(call: ToolCall)
}
