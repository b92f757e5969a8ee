/**
 * `useExternal(type, content)` (src/web/external.ts): the same element
 * management as `useResourceTag`, with a plainer choice of property: a
 * script whose content starts with 'http' goes to `src`.
 */
module External {
  import opened Dom
  import opened Tags
  import ResourceTag

  /** `codePropName` */
  function ChooseProp(kind: TagKind, code: string): (prop: CodeProp)
    ensures kind == Style ==> prop == TextContent
    ensures kind == Script ==> (prop == Src <==> ResourceTag.StartsWith(code, "http"))
  {
    if kind == Script && ResourceTag.StartsWith(code, "http") then Src else TextContent
  }

  /**
   * The two choices differ: a root-relative path goes to `src` here only
   * through `useResourceTag`, and content that merely starts with 'http'
   * goes to `src` here only.
   */
  lemma ChoicesDiffer()
    ensures ChooseProp(Script, "/assets/app.js") == TextContent
    ensures ResourceTag.ChooseProp(Script, "/assets/app.js") == Src
    ensures ChooseProp(Script, "httpGet()") == Src
    ensures ResourceTag.ChooseProp(Script, "httpGet()") == TextContent
  {
    assert ResourceTag.StartsWith("/assets/app.js", "/");
    var call := "httpGet()";
    assert call[0] == 'h' && call[1] == 't' && call[2] == 't' && call[3] == 'p';
    assert call[4] == 'G' && call[5] == 'e' && call[6] == 't' && call[7] == '(';
    assert ResourceTag.StartsWith(call, "http");
    assert !ResourceTag.StartsWith(call, "http:/") && !ResourceTag.StartsWith(call, "https:/");
    assert !ResourceTag.InTokenClass(call[7]);
    assert forall k :: 2 <= k < |call| && ResourceTag.TokenRun(call, 1, k) ==> k <= 7;
  }

  /** One run of the render effect with the content read now. */
  method Render(e: TagElement, head: Head, code: string) returns (wrote: bool)
    modifies e, head
    ensures wrote <==> old(Current(e, ChooseProp(e.kind, code))) != code
    ensures Current(e, ChooseProp(e.kind, code)) == code
    ensures wrote ==> head.children == Without(old(head.children), e) + [e]
    ensures !wrote ==> head.children == old(head.children) && e.src == old(e.src) && e.textContent == old(e.textContent)
  {
    wrote := Write(e, head, ChooseProp(e.kind, code), code);
  }

  /** `useExternal(type, content)`: a new element is created and the effect runs once. */
  method UseExternal(kind: TagKind, code: string, head: Head) returns (e: TagElement)
    modifies head
    ensures fresh(e) && e.kind == kind
    ensures Current(e, ChooseProp(kind, code)) == code
    ensures code != "" ==> head.children == old(head.children) + [e]
    ensures code == "" ==> head.children == old(head.children)
  {
    e := new TagElement(kind);
    WithoutAbsent(head.children, e);
    var _ := Render(e, head, code);
  }

  /** The cleanup: removes the element only when the head contains it. */
  method Cleanup(e: TagElement, head: Head)
    modifies head
    ensures e !in head.children
    ensures old(e in head.children) ==> head.children == Without(old(head.children), e)
    ensures old(e !in head.children) ==> head.children == old(head.children)
  {
    if e in head.children {
      head.RemoveIfPresent(e);
    }
  }
}
