/**
 * The few JavaScript value semantics the builders rely on: literal option
 * data, `a || b` on an optional string, `${x}` on an optional string and
 * `filter(Boolean)` on a list of strings.
 */
module Js {
  import opened Wrappers

  /** Literal data the builders hand to webpack: JSON-like values plus regular-expression literals. */
  datatype Value =
    | Null
    | Bool(b: bool)
    | Number(n: real)
    | Str(s: string)
    | Array(items: seq<Value>)
    | Object(fields: map<string, Value>)
    | RegExp(source: string, flags: string)

  /** `v || fallback` where `v` is a string or `undefined`: the empty string is falsy. */
  function Or(v: Option<string>, fallback: string): (r: string)
    ensures v.Some? && v.value != "" ==> r == v.value
    ensures v.None? || v.value == "" ==> r == fallback
    ensures fallback != "" ==> r != ""
  {
    if v.Some? && v.value != "" then v.value else fallback
  }

  /** `${v}` in a template literal: `undefined` prints as "undefined". */
  function Interpolate(v: Option<string>): (r: string)
    ensures v.Some? ==> r == v.value
    ensures v.None? ==> r == "undefined"
  {
    match v
    case Some(s) => s
    case None => "undefined"
  }

  /** `list.filter(Boolean)` on strings: drops the empty strings, keeps the rest in order. */
  function Compact(list: seq<string>): (r: seq<string>)
    ensures |r| <= |list|
    ensures forall x :: x in r <==> x in list && x != ""
    decreases |list|
  {
    if list == [] then []
    else if list[0] == "" then Compact(list[1..])
    else [list[0]] + Compact(list[1..])
  }

  /** Filtering distributes over concatenation, so the order of the kept strings is the input's. */
  lemma {:induction false} CompactConcat(a: seq<string>, b: seq<string>)
    ensures Compact(a + b) == Compact(a) + Compact(b)
    decreases |a|
  {
    if a == [] {
      assert a + b == b;
    } else {
      assert (a + b)[0] == a[0];
      assert (a + b)[1..] == a[1..] + b;
      CompactConcat(a[1..], b);
    }
  }

  /** Filtering a two-element list keeps exactly its non-empty elements, first one first. */
  lemma CompactPair(x: string, y: string)
    ensures Compact([x, y]) == (if x == "" then [] else [x]) + (if y == "" then [] else [y])
  {
    assert [x, y] == [x] + [y];
    CompactConcat([x], [y]);
  }

  /** A list of strings as a JavaScript array of strings, in order. */
  function StrArray(items: seq<string>): (r: Value)
    ensures r.Array? && |r.items| == |items|
    ensures forall i :: 0 <= i < |items| ==> r.items[i] == Str(items[i])
  {
    Array(seq(|items|, i requires 0 <= i < |items| => Str(items[i])))
  }
}
