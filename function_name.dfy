/** The function naming model: a called function is named either by a bare
    name or by a path of namespace segments, and both render as one display
    string, the segments joined with "::". */
module FunctionNames {

  /** The delimiter between namespace segments. */
  const Separator: string := "::"

  /** `Vec::join`: the items in their given order with `sep` between each
      consecutive pair; a single item is rendered alone, no items as "". */
  function Join(items: seq<string>, sep: string): (r: string)
    ensures items == [] ==> r == ""
    ensures items != [] ==> items[0] <= r
  {
    if |items| == 0 then ""
    else if |items| == 1 then items[0]
    else items[0] + sep + Join(items[1..], sep)
  }

  /** Appending an item appends the delimiter and that item to the rendering. */
  lemma {:induction false} JoinSnoc(items: seq<string>, x: string, sep: string)
    requires items != []
    ensures Join(items + [x], sep) == Join(items, sep) + sep + x
  {
    if |items| > 1 {
      assert (items + [x])[1..] == items[1..] + [x];
      JoinSnoc(items[1..], x, sep);
    }
  }

  /** `s` holds no colon, so it cannot contain the delimiter. */
  predicate ColonFree(s: string) {
    ':' !in s
  }

  /** The reference reading of a rendered namespace: the text cut at every
      "::", scanning from the left. */
  function SplitNamespace(s: string): (r: seq<string>)
    ensures r != []
  {
    if s == [] then [""]
    else if |s| >= 2 && s[0] == ':' && s[1] == ':' then [""] + SplitNamespace(s[2..])
    else
      var t := SplitNamespace(s[1..]);
      [[s[0]] + t[0]] + t[1..]
  }

  lemma {:induction false} SplitColonFree(x: string)
    requires ColonFree(x)
    ensures SplitNamespace(x) == [x]
  {
    if x != [] {
      SplitColonFree(x[1..]);
      assert [x[0]] + x[1..] == x;
    }
  }

  lemma {:induction false} SplitAfterSegment(x: string, rest: string)
    requires ColonFree(x)
    ensures SplitNamespace(x + Separator + rest) == [x] + SplitNamespace(rest)
  {
    if x == [] {
      assert x + Separator + rest == "::" + rest;
      assert ("::" + rest)[2..] == rest;
    } else {
      var s := x + Separator + rest;
      assert s[1..] == x[1..] + Separator + rest;
      SplitAfterSegment(x[1..], rest);
      assert [x[0]] + x[1..] == x;
    }
  }

  /** Rendering a non-empty list of colon-free segments loses nothing: cutting
      the rendering at each "::" gives back the segments, in order. */
  lemma {:induction false} SplitJoin(segments: seq<string>)
    requires segments != []
    requires forall i :: 0 <= i < |segments| ==> ColonFree(segments[i])
    ensures SplitNamespace(Join(segments, Separator)) == segments
  {
    if |segments| == 1 {
      SplitColonFree(segments[0]);
    } else {
      SplitJoin(segments[1..]);
      SplitAfterSegment(segments[0], Join(segments[1..], Separator));
    }
  }

  datatype FunctionName =
    | Single(name: string)
    | Namespace(segments: seq<string>)
  {
    /** The display string of the name. */
    function ToString(): (r: string)
      ensures Single? ==> r == name
      ensures Namespace? && segments == [] ==> r == ""
      ensures Namespace? && |segments| == 1 ==> r == segments[0]
      ensures Namespace? && segments != [] ==> segments[0] <= r
    {
      match this
      case Single(s) => s
      case Namespace(n) => Join(n, Separator)
    }

    /** `as_single` is another name for the display string. */
    function AsSingle(): (r: string)
      ensures r == ToString()
      ensures Single? ==> r == name
    {
      ToString()
    }
  }

  /** Two namespaced names with non-empty lists of colon-free segments render
      alike only when their segment lists are equal: rendering neither drops,
      merges nor reorders segments. */
  lemma NamespaceRenderingInjective(a: seq<string>, b: seq<string>)
    requires a != [] && b != []
    requires forall i :: 0 <= i < |a| ==> ColonFree(a[i])
    requires forall i :: 0 <= i < |b| ==> ColonFree(b[i])
    ensures Namespace(a).ToString() == Namespace(b).ToString() ==> a == b
  {
    SplitJoin(a);
    SplitJoin(b);
  }

  /** The worked rendering of a three-segment path. */
  lemma ThreeSegmentExample()
    ensures Namespace(["a", "b", "c"]).ToString() == "a::b::c"
  {
  }
}
