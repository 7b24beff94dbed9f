/** `URLSearchParams`: an ordered list of key/value pairs, its `toString()`
    (`k=v` joined by `&`), the parse that reads a query back, and `get`.
    Percent-encoding is not modelled: the round trip is stated for keys
    without `&` or `=` and values without `&`. */
module QueryParams {
  import opened JsValues

  type Pair = (string, string)

  function PairText(p: Pair): string
  {
    p.0 + "=" + p.1
  }

  /** `params.toString()`. */
  function Serialize(ps: seq<Pair>): string
  {
    if ps == [] then ""
    else if |ps| == 1 then PairText(ps[0])
    else PairText(ps[0]) + "&" + Serialize(ps[1..])
  }

  /** A pair that serialises without ambiguity. */
  predicate Plain(p: Pair)
  {
    '&' !in p.0 && '=' !in p.0 && '&' !in p.1
  }

  function IndexOf(s: string, c: char): (i: nat)
    requires c in s
    ensures i < |s| && s[i] == c && c !in s[..i]
  {
    if s[0] == c then 0 else 1 + IndexOf(s[1..], c)
  }

  /** The `&`-separated segments of a query string. */
  function Segments(q: string): (r: seq<string>)
    ensures |r| >= 1
    decreases |q|
  {
    if '&' in q then
      var i := IndexOf(q, '&');
      [q[..i]] + Segments(q[i + 1..])
    else [q]
  }

  /** One segment: the key runs up to the first `=`, the value is the rest. */
  function ParsePair(seg: string): Pair
  {
    if '=' in seg then
      var i := IndexOf(seg, '=');
      (seg[..i], seg[i + 1..])
    else (seg, "")
  }

  /** Empty segments are skipped, as `URLSearchParams` does. */
  function ParseSegments(segs: seq<string>): seq<Pair>
  {
    if segs == [] then []
    else (if segs[0] == "" then [] else [ParsePair(segs[0])]) + ParseSegments(segs[1..])
  }

  /** `new URLSearchParams(q)`. */
  function Parse(q: string): seq<Pair>
  {
    ParseSegments(Segments(q))
  }

  /** `params.get(key)`: the value of the first pair with that key, or null. */
  function Get(ps: seq<Pair>, key: string): (r: Option<string>)
    ensures r.Some? ==> (key, r.value) in ps
    ensures r.None? <==> forall p :: p in ps ==> p.0 != key
  {
    if ps == [] then None
    else if ps[0].0 == key then Some(ps[0].1)
    else Get(ps[1..], key)
  }

  /** An empty parameter list, and only that, serialises to the empty string. */
  lemma SerializeEmpty(ps: seq<Pair>)
    ensures Serialize(ps) == "" <==> ps == []
  {
    if ps != [] {
      assert Serialize(ps)[|ps[0].0|] == '=';
    }
  }

  lemma ParsePairText(p: Pair)
    requires Plain(p)
    ensures ParsePair(PairText(p)) == p
  {
    var s := PairText(p);
    IndexOfAfter(p.0, '=', p.1);
    assert s[..|p.0|] == p.0;
    assert s[|p.0| + 1..] == p.1;
  }

  /** The first `c` in `a + [c] + rest` is the one after `a` when `a` has none. */
  lemma {:induction false} IndexOfAfter(a: string, c: char, rest: string)
    requires c !in a
    ensures IndexOf(a + [c] + rest, c) == |a|
  {
    if a != [] {
      assert (a + [c] + rest)[1..] == a[1..] + [c] + rest;
      IndexOfAfter(a[1..], c, rest);
    }
  }

  lemma PlainPairText(p: Pair)
    requires Plain(p)
    ensures '&' !in PairText(p) && PairText(p) != ""
  {
    var s := PairText(p);
    assert s[|p.0|] == '=';
    forall j | 0 <= j < |s| ensures s[j] != '&' {
      if j < |p.0| {
        assert s[j] == p.0[j];
      } else if j > |p.0| {
        assert s[j] == p.1[j - |p.0| - 1];
      }
    }
  }

  lemma SegmentsOfJoin(a: string, rest: string)
    requires '&' !in a
    ensures Segments(a + "&" + rest) == [a] + Segments(rest)
  {
    var s := a + "&" + rest;
    IndexOfAfter(a, '&', rest);
    assert s[..|a|] == a;
    assert s[|a| + 1..] == rest;
  }

  /** Reading back what `toString()` wrote gives the same pairs, in the same order. */
  lemma {:induction false} ParseSerialize(ps: seq<Pair>)
    requires forall p :: p in ps ==> Plain(p)
    ensures Parse(Serialize(ps)) == ps
  {
    if ps == [] {
      assert Segments("") == [""];
    } else {
      var head := PairText(ps[0]);
      PlainPairText(ps[0]);
      ParsePairText(ps[0]);
      if |ps| == 1 {
        assert Segments(head) == [head];
        assert ParseSegments([head]) == [ParsePair(head)] + ParseSegments([]);
      } else {
        SegmentsOfJoin(head, Serialize(ps[1..]));
        var segs := [head] + Segments(Serialize(ps[1..]));
        assert segs[1..] == Segments(Serialize(ps[1..]));
        assert forall p :: p in ps[1..] ==> p in ps;
        ParseSerialize(ps[1..]);
        assert ps == [ps[0]] + ps[1..];
      }
    }
  }
}
