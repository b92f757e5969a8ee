/**
 * The render effect shared by `useResourceTag` (src/resource-tag.ts) and
 * `useExternal` (src/web/external.ts): the content goes to one property of
 * the element, which is written, and the element appended to the document
 * head, only when the property differs from the content.
 */
module Tags {
  import opened Dom

  datatype CodeProp = Src | TextContent

  /** `element[codePropName]` */
  function Current(e: TagElement, prop: CodeProp): string
    reads e
  {
    match prop
    case Src => e.src
    case TextContent => e.textContent
  }

  /**
   * The body of the effect once the property is chosen. Returns whether it
   * wrote; only then is the element (re)appended, moving it to the end of
   * the head. The other property is never touched.
   */
  method Write(e: TagElement, head: Head, prop: CodeProp, code: string) returns (wrote: bool)
    modifies e, head
    ensures wrote <==> old(Current(e, prop)) != code
    ensures Current(e, prop) == code
    ensures prop == Src ==> e.textContent == old(e.textContent)
    ensures prop == TextContent ==> e.src == old(e.src)
    ensures wrote ==> head.children == Without(old(head.children), e) + [e]
    ensures !wrote ==> head.children == old(head.children)
  {
    wrote := Current(e, prop) != code;
    if wrote {
      match prop {
        case Src => e.src := code;
        case TextContent => e.textContent := code;
      }
      head.AppendChild(e);
    }
  }

  /** Running the effect again with the same content writes nothing and leaves the head as it is. */
  method WriteTwice(e: TagElement, head: Head, prop: CodeProp, code: string) returns (first: bool, second: bool)
    modifies e, head
    ensures !second
    ensures first <==> old(Current(e, prop)) != code
    ensures first ==> head.children == Without(old(head.children), e) + [e]
    ensures !first ==> head.children == old(head.children)
  {
    first := Write(e, head, prop, code);
    second := Write(e, head, prop, code);
  }
}
