/**
 * `$getType(obj)`: the lower-cased class tag of a value.
 *
 * For anything but undefined the source evaluates
 * `{}.toString.call(obj).match(/\s([a-z|A-Z]+)/)[1].toLowerCase()`:
 * it renders `[object <tag>]`, takes the first letter run that follows a
 * white-space character, and lower-cases it. This module defines that
 * search and proves what it finds.
 */
module TypeTags {
  import opened JsValues

  /** The characters that `\s` matches in a JavaScript regular expression. */
  predicate IsSpace(c: char)
  {
    c == '\t' || c == '\n' || c == '\U{000B}' || c == '\U{000C}' || c == '\r' || c == ' '
    || c == '\U{00A0}' || c == '\U{1680}' || ('\U{2000}' <= c <= '\U{200A}')
    || c == '\U{2028}' || c == '\U{2029}' || c == '\U{202F}' || c == '\U{205F}'
    || c == '\U{3000}' || c == '\U{FEFF}'
  }

  /** The class `[a-z|A-Z]`: ASCII letters and, literally, the bar. */
  predicate IsClassChar(c: char)
  {
    'a' <= c <= 'z' || 'A' <= c <= 'Z' || c == '|'
  }

  /** The greedy run `[a-z|A-Z]*` that starts at index `i`. */
  function RunFrom(s: string, i: nat): (r: string)
    requires i <= |s|
    ensures i + |r| <= |s| && r == s[i..i + |r|]
    ensures forall c :: c in r ==> IsClassChar(c)
    ensures i + |r| == |s| || !IsClassChar(s[i + |r|])
    decreases |s| - i
  {
    if i < |s| && IsClassChar(s[i]) then [s[i]] + RunFrom(s, i + 1) else ""
  }

  /** The regular expression `\s([a-z|A-Z]+)` matches at index `p`. */
  predicate MatchesAt(s: string, p: int)
  {
    0 <= p && p + 1 < |s| && IsSpace(s[p]) && IsClassChar(s[p + 1])
  }

  /** `q` is the first index at or after `p` where the pattern matches. */
  predicate FirstMatch(s: string, p: int, q: int)
  {
    p <= q && MatchesAt(s, q) && forall q' :: p <= q' < q ==> !MatchesAt(s, q')
  }

  /**
   * Where the regular expression first matches at or after index `p`: none
   * exactly when it matches nowhere from `p` on.
   */
  function MatchIndex(s: string, p: nat): (r: Option<nat>)
    requires p <= |s|
    ensures r.None? <==> forall q :: p <= q ==> !MatchesAt(s, q)
    ensures r.Some? ==> FirstMatch(s, p, r.value)
    decreases |s| - p
  {
    if p + 1 >= |s| then None
    else if MatchesAt(s, p) then Some(p)
    else
      NoMatchAt(s, p);
      MatchIndex(s, p + 1)
  }

  /** Where the pattern does not match at `p`, the matches from `p` on are those from `p + 1` on. */
  lemma NoMatchAt(s: string, p: nat)
    requires !MatchesAt(s, p)
    ensures (forall q :: p <= q ==> !MatchesAt(s, q)) <==> (forall q :: p + 1 <= q ==> !MatchesAt(s, q))
    ensures forall q :: FirstMatch(s, p + 1, q) ==> FirstMatch(s, p, q)
  {
  }

  /**
   * Capture group 1 of the first match at or after index `p`: none exactly
   * when the pattern matches nowhere from `p` on, and otherwise the
   * non-empty run of class characters after the first matching white-space
   * character.
   */
  function Search(s: string, p: nat): (r: Option<string>)
    requires p <= |s|
    ensures r.None? <==> forall q :: p <= q ==> !MatchesAt(s, q)
    ensures r.Some? ==> r.value != "" && forall c :: c in r.value ==> IsClassChar(c)
    ensures forall q :: FirstMatch(s, p, q) ==> r == Some(RunFrom(s, q + 1))
  {
    match MatchIndex(s, p)
    case None => None
    case Some(q) =>
      FirstMatchIsUnique(s, p, q);
      assert RunFrom(s, q + 1)[0] == s[q + 1];
      Some(RunFrom(s, q + 1))
  }

  /** There is at most one first match. */
  lemma FirstMatchIsUnique(s: string, p: int, q: int)
    requires FirstMatch(s, p, q)
    ensures forall q' :: FirstMatch(s, p, q') ==> q' == q
  {
  }

  /** `Search` reports the capture of the leftmost match. */
  lemma SearchIsLeftmostMatch(s: string, p: nat, q: nat)
    requires p <= q && MatchesAt(s, q)
    requires forall q' :: p <= q' < q ==> !MatchesAt(s, q')
    ensures Search(s, p) == Some(RunFrom(s, q + 1))
  {
    assert FirstMatch(s, p, q);
  }

  /** With no match from `p` on, `Search` finds nothing. */
  lemma SearchFailsWithoutMatch(s: string, p: nat)
    requires p <= |s|
    requires forall q :: p <= q ==> !MatchesAt(s, q)
    ensures Search(s, p) == None
  {
  }

  /**
   * The run at `i` is the only string that is a slice from `i` on, is made
   * of class characters and stops at the end or before a character outside
   * the class.
   */
  lemma RunIsUnique(s: string, i: nat, n: nat)
    requires i + n <= |s|
    requires forall j :: i <= j < i + n ==> IsClassChar(s[j])
    requires i + n == |s| || !IsClassChar(s[i + n])
    ensures RunFrom(s, i) == s[i..i + n]
  {
    assert |RunFrom(s, i)| == n;
  }

  /** A run that starts right after a prefix and ends before a non-class character is the run of the middle part. */
  lemma RunAfterPrefix(pre: string, tag: string, c: char)
    requires !IsClassChar(c)
    ensures RunFrom(pre + tag + [c], |pre|) == RunFrom(tag, 0)
  {
    var s := pre + tag + [c];
    var w := RunFrom(tag, 0);
    forall j | |pre| <= j < |pre| + |w| ensures IsClassChar(s[j]) {
      assert s[j] == w[j - |pre|] && w[j - |pre|] in w;
    }
    assert s[|pre| + |w|] == if |w| == |tag| then c else tag[|w|];
    RunIsUnique(s, |pre|, |w|);
    assert s[|pre|..|pre| + |w|] == w;
  }

  function LowerChar(c: char): char
  {
    if 'A' <= c <= 'Z' then (c as int + 32) as char else c
  }

  /** `String.prototype.toLowerCase` on the ASCII characters the class admits. */
  function ToLower(s: string): (r: string)
    ensures |r| == |s| && forall i :: 0 <= i < |s| ==> r[i] == LowerChar(s[i])
  {
    if s == [] then [] else [LowerChar(s[0])] + ToLower(s[1..])
  }

  /** Lower-casing a run of class characters leaves only `a`-`z` and `|`. */
  lemma LowerOfRun(w: string)
    requires forall c :: c in w ==> IsClassChar(c)
    ensures forall c :: c in ToLower(w) ==> 'a' <= c <= 'z' || c == '|'
  {
    forall c | c in ToLower(w) ensures 'a' <= c <= 'z' || c == '|' {
      var i :| 0 <= i < |w| && ToLower(w)[i] == c;
      assert w[i] in w;
    }
  }

  /** `Object.prototype.toString.call(v)` */
  function ObjectToString(v: Value): string
  {
    "[object " + ClassTag(v) + "]"
  }

  /**
   * For a tag that starts with a letter (every built-in tag does), the
   * search matches the space after `[object` and captures the tag's
   * leading letter run.
   */
  lemma TaggedSearch(tag: string)
    ensures |tag| > 0 && IsClassChar(tag[0]) ==> Search("[object " + tag + "]", 0) == Some(RunFrom(tag, 0))
  {
    if |tag| == 0 || !IsClassChar(tag[0]) { return; }
    var s := "[object " + tag + "]";
    assert s == "[object " + (tag + "]");
    assert MatchesAt(s, 7);
    forall q' | 0 <= q' < 7 ensures !MatchesAt(s, q') {
      assert s[q'] == "[object"[q'];
    }
    SearchIsLeftmostMatch(s, 0, 7);
    RunAfterPrefix("[object ", tag, ']');
  }

  /**
   * `$getType(obj)`: 'undefined' for undefined; otherwise the lower-cased
   * capture, or a TypeError when the pattern does not match (possible only
   * for an object whose `Symbol.toStringTag` starts with no letter and has
   * no white space followed by a letter).
   */
  function GetType(v: Value): (r: Completion<string>)
    ensures v == Undefined ==> r == Normal("undefined")
    ensures (v != Undefined && |ClassTag(v)| > 0 && IsClassChar(ClassTag(v)[0]))
            ==> r == Normal(ToLower(RunFrom(ClassTag(v), 0)))
    ensures v != Undefined && r.Normal? ==>
              r.value != "" && forall c :: c in r.value ==> 'a' <= c <= 'z' || c == '|'
  {
    if v == Undefined then Normal("undefined")
    else
      var s := ObjectToString(v);
      TaggedSearch(ClassTag(v));
      match Search(s, 0)
      case None => Throw(TypeError("Cannot read properties of null (reading '1')"))
      case Some(w) =>
        LowerOfRun(w);
        Normal(ToLower(w))
  }

  /** A tag made only of class characters comes back whole, lower-cased. */
  lemma {:induction false} LetterTagIsLowered(v: Value)
    requires v != Undefined && |ClassTag(v)| > 0
    requires forall c :: c in ClassTag(v) ==> IsClassChar(c)
    ensures GetType(v) == Normal(ToLower(ClassTag(v)))
  {
    var tag := ClassTag(v);
    assert forall i :: 0 <= i < |tag| ==> IsClassChar(tag[i]) by {
      forall i | 0 <= i < |tag| ensures IsClassChar(tag[i]) {
        assert tag[i] in tag;
      }
    }
    assert RunFrom(tag, 0) == tag;
  }

  /** The name `$getType` gives each built-in tag: the tag, lower-cased. */
  function BuiltinName(v: Value): string
  {
    match v
    case Undefined => "undefined"
    case Null => "null"
    case Bool(_) => "boolean"
    case Num(_) => "number"
    case NaN => "number"
    case Str(_) => "string"
    case Arr(_) => "array"
    case Obj(_, _) => "object"
  }

  /** `$getType` of the primitive and array values, whose tags are built in. */
  lemma BuiltinTypes(v: Value)
    ensures !v.Obj? ==> GetType(v) == Normal(BuiltinName(v))
  {
    match v
    case Undefined =>
    case Null => BuiltinType(v, "null");
    case Bool(_) => BuiltinType(v, "boolean");
    case Num(_) => BuiltinType(v, "number");
    case NaN => BuiltinType(v, "number");
    case Str(_) => BuiltinType(v, "string");
    case Arr(_) => BuiltinType(v, "array");
    case Obj(_, _) =>
  }

  /** A plain object renders `[object Object]`. */
  lemma PlainObjectType(props: seq<(string, Value)>)
    ensures GetType(Object(props)) == Normal("object")
  {
    BuiltinType(Object(props), "object");
  }

  lemma BuiltinType(v: Value, lower: string)
    requires v != Undefined && |ClassTag(v)| == |lower| > 0
    requires forall i :: 0 <= i < |lower| ==> LowerChar(ClassTag(v)[i]) == lower[i] && IsClassChar(ClassTag(v)[i])
    ensures GetType(v) == Normal(lower)
  {
    var tag := ClassTag(v);
    assert ToLower(tag) == lower;
    assert forall c :: c in tag ==> IsClassChar(c);
    LetterTagIsLowered(v);
  }

  /** An object whose tag is empty renders `[object ]`, which the pattern does not match. */
  lemma EmptyTagFaults(props: seq<(string, Value)>)
    ensures GetType(Obj("", props)).Throw?
  {
    var s := ObjectToString(Obj("", props));
    assert s == "[object ]";
    forall q | 0 <= q ensures !MatchesAt(s, q) {
      if 0 <= q < |s| - 1 { assert s[q] == "[object ]"[q]; }
    }
    SearchFailsWithoutMatch(s, 0);
  }
}
