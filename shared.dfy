/** Values shared by the loader, the conversation loop and the tool server. */
module Shared {

  datatype Option<+T> = None | Some(value: T)

  /** What a call into code outside the model (a database driver, the model
      endpoint, a tool provider, a file reader) gives back: a value, or an
      exception whose `str(e)` is `message`. */
  datatype Outcome<+T> = Returned(value: T) | Raised(message: string)

  /** JSON-compatible values: tool arguments, tool results and the dicts the
      tool server returns. Floating-point numbers are not modelled. */
  datatype Json =
    | Null
    | Bool(b: bool)
    | Number(n: int)
    | Str(s: string)
    | Array(items: seq<Json>)
    | Object(fields: map<string, Json>)

  /** Concatenation of a sequence of sequences. */
  function Concat<T>(parts: seq<seq<T>>): (r: seq<T>)
    ensures parts == [] ==> r == []
  {
    if parts == [] then [] else Concat(parts[..|parts| - 1]) + parts[|parts| - 1]
  }

  /** `[f(x) for x in s]`, built from the end. */
  function Map<A, B>(f: A -> B, s: seq<A>): seq<B> {
    if s == [] then [] else Map(f, s[..|s| - 1]) + [f(s[|s| - 1])]
  }

  lemma {:induction false} MapPointwise<A, B>(f: A -> B, s: seq<A>)
    ensures |Map(f, s)| == |s|
    ensures forall i :: 0 <= i < |s| ==> Map(f, s)[i] == f(s[i])
  {
    if s != [] {
      MapPointwise(f, s[..|s| - 1]);
    }
  }

  lemma MapSnoc<A, B>(f: A -> B, s: seq<A>, x: A)
    ensures Map(f, s + [x]) == Map(f, s) + [f(x)]
  {
    assert (s + [x])[..|s|] == s;
  }

  /** A loop that appends `f(x)` for each `x` of `s`, in order. */
  method MapEach<A, B>(f: A -> B, s: seq<A>) returns (r: seq<B>)
    ensures r == Map(f, s)
  {
    r := [];
    var k := 0;
    while k < |s|
      invariant k <= |s|
      invariant r == Map(f, s[..k])
    {
      MapSnoc(f, s[..k], s[k]);
      assert s[..k + 1] == s[..k] + [s[k]];
      r := r + [f(s[k])];
      k := k + 1;
    }
    assert s[..k] == s;
  }

  lemma ConcatSnoc<T>(parts: seq<seq<T>>, last: seq<T>)
    ensures Concat(parts + [last]) == Concat(parts) + last
  {
    assert (parts + [last])[..|parts|] == parts;
  }
}
