/**
 * `cls(...args)` (src/web/cls.ts): concatenates class names. An argument is
 * used only when it is truthy and has an `.at` method, which among the
 * declared argument types (string, number, boolean, null, undefined) leaves
 * exactly the non-empty strings; these are joined by single spaces.
 */
module Cls {
  import opened Js

  /** Strings and arrays have `.at`; numbers, booleans, null, undefined and plain objects do not. */
  predicate HasAt(v: JsValue)
  {
    v.Str?
  }

  /** The test `(tmp = args[i]) && tmp.at`. */
  predicate Used(v: JsValue)
  {
    Truthy(v) && HasAt(v)
  }

  lemma UsedIsNonEmptyString(v: JsValue)
    ensures Used(v) <==> v.Str? && v.s != ""
  {
  }

  /** The class names `cls` keeps, in argument order. */
  function ClassNames(args: seq<JsValue>): (names: seq<string>)
    ensures |names| <= |args|
    ensures forall k :: 0 <= k < |names| ==> names[k] != ""
  {
    if args == [] then []
    else
      var last := args[|args| - 1];
      ClassNames(args[..|args| - 1]) + (if Used(last) then [last.s] else [])
  }

  /** `parts` joined by single spaces. */
  function JoinSpaced(parts: seq<string>): string
  {
    if |parts| == 0 then ""
    else if |parts| == 1 then parts[0]
    else JoinSpaced(parts[..|parts| - 1]) + " " + parts[|parts| - 1]
  }

  predicate NoEmptyPart(parts: seq<string>)
  {
    forall k :: 0 <= k < |parts| ==> parts[k] != ""
  }

  /** Joining non-empty names gives '' exactly when there are none. */
  lemma {:induction false} JoinSpacedEmpty(parts: seq<string>)
    requires NoEmptyPart(parts)
    ensures JoinSpaced(parts) == "" <==> parts == []
  {
    if |parts| > 1 {
      assert |JoinSpaced(parts)| >= |parts[|parts| - 1]| > 0;
    }
  }

  /** Appending a name adds a separator only when the string so far is non-empty. */
  lemma JoinSpacedSnoc(parts: seq<string>, s: string)
    requires NoEmptyPart(parts)
    ensures JoinSpaced(parts + [s]) == if JoinSpaced(parts) == "" then s else JoinSpaced(parts) + " " + s
  {
    JoinSpacedEmpty(parts);
    var ps := parts + [s];
    assert ps[..|ps| - 1] == parts;
    if |parts| == 1 {
      assert JoinSpaced(parts) == parts[0];
    }
  }

  /**
   * The loop of `cls`: walks the arguments once, appending each used one to
   * `str`, preceded by a space when `str` is already non-empty.
   */
  method ClassString(args: seq<JsValue>) returns (str: string)
    ensures str == JoinSpaced(ClassNames(args))
  {
    str := "";
    var i := 0;
    while i < |args|
      invariant 0 <= i <= |args|
      invariant str == JoinSpaced(ClassNames(args[..i]))
    {
      var tmp := args[i];
      assert args[..i + 1][..i] == args[..i];
      assert ClassNames(args[..i + 1]) == ClassNames(args[..i]) + (if Used(tmp) then [tmp.s] else []);
      if Truthy(tmp) && HasAt(tmp) {
        JoinSpacedSnoc(ClassNames(args[..i]), tmp.s);
        str := str + (if str != "" then " " else "") + tmp.s;
        assert str == JoinSpaced(ClassNames(args[..i + 1]));
      } else {
        assert ClassNames(args[..i + 1]) == ClassNames(args[..i]) + [];
        assert ClassNames(args[..i]) + [] == ClassNames(args[..i]);
      }
      i := i + 1;
    }
    assert args[..i] == args;
  }

  /** `cls()` and every call without a non-empty string give ''. */
  lemma {:induction false} EmptyIffNoClassNames(args: seq<JsValue>)
    ensures JoinSpaced(ClassNames(args)) == "" <==> forall k :: 0 <= k < |args| ==> !Used(args[k])
  {
    JoinSpacedEmpty(ClassNames(args));
    ClassNamesEmpty(args);
  }

  lemma {:induction false} ClassNamesEmpty(args: seq<JsValue>)
    ensures ClassNames(args) == [] <==> forall k :: 0 <= k < |args| ==> !Used(args[k])
  {
    if args != [] {
      var init := args[..|args| - 1];
      ClassNamesEmpty(init);
      assert forall k :: 0 <= k < |init| ==> init[k] == args[k];
    }
  }

  /** Every kept name is the string of some used argument. */
  lemma {:induction false} ClassNameFromArgument(args: seq<JsValue>, k: nat)
    requires k < |ClassNames(args)|
    ensures exists j :: 0 <= j < |args| && Used(args[j]) && args[j].s == ClassNames(args)[k]
  {
    var init := args[..|args| - 1];
    var last := args[|args| - 1];
    assert ClassNames(args) == ClassNames(init) + (if Used(last) then [last.s] else []);
    if k < |ClassNames(init)| {
      ClassNameFromArgument(init, k);
      var j :| 0 <= j < |init| && Used(init[j]) && init[j].s == ClassNames(init)[k];
      assert args[j] == init[j];
    } else {
      assert args[|args| - 1] == last;
    }
  }

  /** A single string comes back unchanged; any other single argument gives ''. */
  lemma SingleArgument(v: JsValue)
    ensures JoinSpaced(ClassNames([v])) == if v.Str? then v.s else ""
  {
    assert [v][..0] == [];
  }

  /** The two-name cases of tests/cls.test.ts: false is skipped. */
  lemma VariadicExamples()
    ensures JoinSpaced(ClassNames([Str("foo"), Str("bar")])) == "foo bar"
    ensures JoinSpaced(ClassNames([Str("foo"), Bool(false), Str("baz")])) == "foo baz"
  {
    var a := [Str("foo"), Str("bar")];
    assert a[..1] == [Str("foo")] && a[..1][..0] == [];
    var b := [Str("foo"), Bool(false), Str("baz")];
    assert b[..2] == [Str("foo"), Bool(false)] && b[..2][..1] == [Str("foo")] && b[..2][..1][..0] == [];
  }

  /** A leading false and a trailing '' are both skipped. */
  lemma SkipsFalsyEnds()
    ensures JoinSpaced(ClassNames([Bool(false), Str("bar"), Str("baz"), Str("")])) == "bar baz"
  {
    var c := [Bool(false), Str("bar"), Str("baz"), Str("")];
    var c3 := [Bool(false), Str("bar"), Str("baz")];
    var c2 := [Bool(false), Str("bar")];
    assert c[..3] == c3 && c3[..2] == c2 && c2[..1] == [Bool(false)] && [Bool(false)][..0] == [];
    assert ClassNames(c2) == ["bar"];
    assert ClassNames(c3) == ["bar", "baz"];
    assert ClassNames(c) == ["bar", "baz"] + [];
  }

  /** Numbers, including Infinity and NaN, are skipped. */
  lemma NonStringExamples()
    ensures JoinSpaced(ClassNames([Num(Finite(1.0)), Num(Finite(2.0))])) == ""
    ensures JoinSpaced(ClassNames([Num(Infinity(false))])) == ""
    ensures JoinSpaced(ClassNames([Num(NaN)])) == ""
  {
    var d := [Num(Finite(1.0)), Num(Finite(2.0))];
    assert d[..1] == [Num(Finite(1.0))] && d[..1][..0] == [];
    assert [Num(Infinity(false))][..0] == [];
    assert [Num(NaN)][..0] == [];
  }

  /**
   * The separator sits only between names: the result starts with the first
   * name's first character and ends with the last name's last character.
   */
  lemma {:induction false} NoOuterSeparator(parts: seq<string>)
    requires NoEmptyPart(parts) && parts != []
    ensures |JoinSpaced(parts)| > 0
    ensures JoinSpaced(parts)[0] == parts[0][0]
    ensures JoinSpaced(parts)[|JoinSpaced(parts)| - 1] == parts[|parts| - 1][|parts[|parts| - 1]| - 1]
  {
    if |parts| > 1 {
      var init := parts[..|parts| - 1];
      NoOuterSeparator(init);
    }
  }

  /** Index of the last space in `s`, if any. */
  function LastSpace(s: string): (r: int)
    ensures -1 <= r < |s|
    ensures r >= 0 ==> s[r] == ' '
    ensures forall k :: r < k < |s| ==> s[k] != ' '
  {
    if s == [] then -1
    else if s[|s| - 1] == ' ' then |s| - 1
    else LastSpace(s[..|s| - 1])
  }

  /** `s.split(' ')`. */
  function SplitSpaces(s: string): (parts: seq<string>)
    ensures |parts| > 0
    decreases |s|
  {
    var k := LastSpace(s);
    if k < 0 then [s] else SplitSpaces(s[..k]) + [s[k + 1..]]
  }

  predicate NoSpaces(s: string)
  {
    forall k :: 0 <= k < |s| ==> s[k] != ' '
  }

  /** Splitting the class string on spaces gives back the names, when no name holds a space. */
  lemma {:induction false} SplitJoinSpaced(parts: seq<string>)
    requires parts != []
    requires forall k :: 0 <= k < |parts| ==> NoSpaces(parts[k])
    ensures SplitSpaces(JoinSpaced(parts)) == parts
  {
    var n := |parts|;
    if n == 1 {
      assert LastSpace(parts[0]) == -1;
    } else {
      var init := parts[..n - 1];
      var j := JoinSpaced(init);
      var s := j + " " + parts[n - 1];
      assert s[|j|] == ' ';
      assert forall k :: |j| < k < |s| ==> s[k] == parts[n - 1][k - |j| - 1];
      assert LastSpace(s) == |j|;
      assert s[..|j|] == j;
      assert s[|j| + 1..] == parts[n - 1];
      SplitJoinSpaced(init);
      assert init + [parts[n - 1]] == parts;
    }
  }
}
