/** The few DOM objects the hooks write to, reduced to the state they touch. */
module Dom {

  /** The element a selector found: its class list, attributes and `style.colorScheme`. */
  class Element {
    var classList: set<string>
    var attributes: map<string, string>
    var colorScheme: string

    constructor (classList: set<string>, attributes: map<string, string>)
      ensures this.classList == classList && this.attributes == attributes && colorScheme == ""
    {
      this.classList := classList;
      this.attributes := attributes;
      colorScheme := "";
    }
  }

  datatype TagKind = Script | Style

  /** A `<script>` or `<style>` element made by `document.createElement`. */
  class TagElement {
    const kind: TagKind
    var src: string
    var textContent: string

    /** A fresh element has neither source nor content. */
    constructor (kind: TagKind)
      ensures this.kind == kind && src == "" && textContent == ""
    {
      this.kind := kind;
      src := "";
      textContent := "";
    }
  }

  /** `s` without `e`. */
  function Without(s: seq<TagElement>, e: TagElement): (r: seq<TagElement>)
    ensures e !in r
    ensures forall i :: 0 <= i < |r| ==> r[i] in s && r[i] != e
    ensures forall i :: 0 <= i < |s| && s[i] != e ==> s[i] in r
    ensures |r| <= |s|
  {
    if s == [] then []
    else if s[0] == e then Without(s[1..], e)
    else [s[0]] + Without(s[1..], e)
  }

  lemma {:induction false} WithoutAbsent(s: seq<TagElement>, e: TagElement)
    requires e !in s
    ensures Without(s, e) == s
  {
    if s != [] {
      WithoutAbsent(s[1..], e);
    }
  }

  /** `document.head` and its children, in order. */
  class Head {
    var children: seq<TagElement>

    constructor ()
      ensures children == []
    {
      children := [];
    }

    /** `appendChild`: the element moves to the end, appearing once. */
    method AppendChild(e: TagElement)
      modifies this
      ensures children == Without(old(children), e) + [e]
    {
      children := Without(children, e) + [e];
    }

    /** `head.contains(e) && head.removeChild(e)` */
    method RemoveIfPresent(e: TagElement)
      modifies this
      ensures e !in children
      ensures old(e in children) ==> children == Without(old(children), e)
      ensures old(e !in children) ==> children == old(children)
    {
      if e in children {
        children := Without(children, e);
      }
    }
  }
}
