/**
 * `useResourceTag(type, content)` (src/resource-tag.ts): a `<script>` or
 * `<style>` element whose content is kept in the document head. Script
 * content that looks like a URL path goes to `src`, anything else to
 * `textContent`. The options spread onto the element are not modelled.
 */
module ResourceTag {
  import opened Dom
  import opened Tags

  /** `\w`: an ASCII letter, digit or underscore. */
  predicate IsWordChar(c: char)
  {
    ('a' <= c <= 'z') || ('A' <= c <= 'Z') || ('0' <= c <= '9') || c == '_'
  }

  /** The class `[\.\w-_%]`: a word character, '.', '-' or '%'. */
  predicate InTokenClass(c: char)
  {
    c == '.' || IsWordChar(c) || c == '-' || c == '%'
  }

  predicate StartsWith(s: string, prefix: string)
  {
    |prefix| <= |s| && s[..|prefix|] == prefix
  }

  /** Every character of `s[i..k]` is in the token class. */
  predicate TokenRun(s: string, i: nat, k: nat)
  {
    i <= k <= |s| && forall j :: i <= j < k ==> InTokenClass(s[j])
  }

  /**
   * What `/^(https?:|\w[\.\w-_%]+|)\//` accepts: a '/' right after 'http:',
   * after 'https:', after a word character followed by one or more token
   * characters, or at the very start.
   */
  ghost predicate UrlPattern(code: string)
  {
    || StartsWith(code, "http:/")
    || StartsWith(code, "https:/")
    || StartsWith(code, "/")
    || (|code| > 0 && IsWordChar(code[0]) && exists k :: 2 <= k < |code| && TokenRun(code, 1, k) && code[k] == '/')
  }

  /** Scans token characters from `i` and reports whether a '/' ends the run. */
  function SlashAfterRun(s: string, i: nat): bool
    decreases |s| - i
  {
    if i >= |s| then false
    else if s[i] == '/' then true
    else if InTokenClass(s[i]) then SlashAfterRun(s, i + 1)
    else false
  }

  lemma {:induction false} SlashAfterRunSpec(s: string, i: nat)
    ensures SlashAfterRun(s, i) <==> exists k :: i <= k < |s| && TokenRun(s, i, k) && s[k] == '/'
    decreases |s| - i
  {
    if i >= |s| {
    } else if s[i] == '/' {
      assert TokenRun(s, i, i);
    } else if InTokenClass(s[i]) {
      SlashAfterRunSpec(s, i + 1);
      if SlashAfterRun(s, i + 1) {
        var k :| i + 1 <= k < |s| && TokenRun(s, i + 1, k) && s[k] == '/';
        assert TokenRun(s, i, k);
      }
      if exists k :: i <= k < |s| && TokenRun(s, i, k) && s[k] == '/' {
        var k :| i <= k < |s| && TokenRun(s, i, k) && s[k] == '/';
        assert k != i;
        assert TokenRun(s, i + 1, k);
      }
    }
  }

  /** The regular expression test, as a scan. */
  function LooksLikeUrl(code: string): (url: bool)
    ensures StartsWith(code, "/") ==> url
    ensures url ==> '/' in code
    ensures |code| > 0 && code[0] != '/' && !IsWordChar(code[0]) ==> !url
  {
    SlashAfterRunSpec(code, 2);
    assert StartsWith(code, "http:/") ==> code[5] == "http:/"[5] == '/';
    assert StartsWith(code, "https:/") ==> code[6] == "https:/"[6] == '/';
    || StartsWith(code, "http:/")
    || StartsWith(code, "https:/")
    || StartsWith(code, "/")
    || (|code| >= 2 && IsWordChar(code[0]) && InTokenClass(code[1]) && SlashAfterRun(code, 2))
  }

  /** The scan accepts exactly the strings the pattern describes. */
  lemma LooksLikeUrlIsPattern(code: string)
    ensures LooksLikeUrl(code) <==> UrlPattern(code)
  {
    if |code| >= 2 && IsWordChar(code[0]) {
      SlashAfterRunSpec(code, 2);
      if exists k :: 2 <= k < |code| && TokenRun(code, 1, k) && code[k] == '/' {
        var k :| 2 <= k < |code| && TokenRun(code, 1, k) && code[k] == '/';
        assert InTokenClass(code[1]);
        assert TokenRun(code, 2, k);
      }
      if InTokenClass(code[1]) && SlashAfterRun(code, 2) {
        var k :| 2 <= k < |code| && TokenRun(code, 2, k) && code[k] == '/';
        assert TokenRun(code, 1, k);
      }
    }
  }

  /** `codePropName`: `src` for a script whose content looks like a URL, `textContent` otherwise. */
  function ChooseProp(kind: TagKind, code: string): (prop: CodeProp)
    ensures kind == Style ==> prop == TextContent
    ensures kind == Script ==> (prop == Src <==> UrlPattern(code))
  {
    LooksLikeUrlIsPattern(code);
    if kind == Script && LooksLikeUrl(code) then Src else TextContent
  }

  /** Absolute, root-relative and host-first paths go to `src`; a style never does. */
  lemma UrlExamples()
    ensures ChooseProp(Script, "https://cdn.example.com/lib.js") == Src
    ensures ChooseProp(Script, "/assets/app.js") == Src
    ensures ChooseProp(Script, "cdn.example.com/lib.js") == Src
    ensures ChooseProp(Style, "/assets/app.css") == TextContent
  {
    assert StartsWith("https://cdn.example.com/lib.js", "https:/");
    var host := "cdn.example.com/lib.js";
    assert host[15] == '/' && TokenRun(host, 1, 15);
  }

  /** './' paths and a one-character first segment go to `textContent`. */
  lemma RelativeExamples()
    ensures ChooseProp(Script, "./app.js") == TextContent
    ensures ChooseProp(Script, "a/app.js") == TextContent
  {
    assert "./app.js"[0] == '.';
    assert "a/app.js"[1] == '/';
  }

  /**
   * Inline code that starts with a call, such as the development page's
   * `console.log(...)`, goes to `textContent`: the token run stops at '('
   * before any '/'.
   */
  lemma InlineCall(code: string)
    requires StartsWith(code, "console.log(")
    ensures ChooseProp(Script, code) == TextContent
  {
    var call := code[..12];
    assert call == "console.log(";
    assert forall k :: 0 <= k < 12 ==> code[k] == call[k];
    assert call[0] == 'c' && call[1] == 'o' && call[2] == 'n' && call[3] == 's' && call[4] == 'o' && call[5] == 'l';
    assert call[6] == 'e' && call[7] == '.' && call[8] == 'l' && call[9] == 'o' && call[10] == 'g' && call[11] == '(';
    assert forall k :: 2 <= k < |code| && TokenRun(code, 1, k) ==> k <= 11;
  }

  /** One run of the render effect with the content read now. */
  method Render(e: TagElement, head: Head, code: string) returns (wrote: bool)
    modifies e, head
    ensures wrote <==> old(Current(e, ChooseProp(e.kind, code))) != code
    ensures Current(e, ChooseProp(e.kind, code)) == code
    ensures wrote ==> head.children == Without(old(head.children), e) + [e]
    ensures !wrote ==> head.children == old(head.children) && e.src == old(e.src) && e.textContent == old(e.textContent)
  {
    wrote := Write(e, head, ChooseProp(e.kind, code), code);
  }

  /**
   * `useResourceTag(type, content)`: a new element is created and the effect
   * runs once. Non-empty content is written and the element ends up last in
   * the head; empty content equals the fresh element's empty property, so
   * nothing is appended.
   */
  method UseResourceTag(kind: TagKind, code: string, head: Head) returns (e: TagElement)
    modifies head
    ensures fresh(e) && e.kind == kind
    ensures Current(e, ChooseProp(kind, code)) == code
    ensures code != "" ==> head.children == old(head.children) + [e]
    ensures code == "" ==> head.children == old(head.children)
  {
    e := new TagElement(kind);
    WithoutAbsent(head.children, e);
    var _ := Render(e, head, code);
  }

  /** The cleanup: the element is removed when the head holds it; otherwise nothing happens. */
  method Cleanup(e: TagElement, head: Head)
    modifies head
    ensures e !in head.children
    ensures old(e in head.children) ==> head.children == Without(old(head.children), e)
    ensures old(e !in head.children) ==> head.children == old(head.children)
  {
    head.RemoveIfPresent(e);
  }

  /** Injecting a tag and cleaning it up leaves the head as it was. */
  method InjectThenCleanup(head: Head, code: string)
    modifies head
    ensures head.children == old(head.children)
  {
    var e := UseResourceTag(Script, code, head);
    Cleanup(e, head);
    WithoutAbsent(old(head.children), e);
    if code != "" {
      WithoutSnoc(old(head.children), e);
    }
  }

  lemma {:induction false} WithoutSnoc(s: seq<TagElement>, e: TagElement)
    requires e !in s
    ensures Without(s + [e], e) == s
  {
    if s == [] {
      assert [e][1..] == [];
    } else {
      assert (s + [e])[1..] == s[1..] + [e];
      WithoutSnoc(s[1..], e);
    }
  }
}
