/** The HTTP values the middleware reads and rebuilds. Header lists are kept
    as Starlette keeps them: an ordered list of (name, value) pairs with
    lower-case names, in which a name may repeat. */
module Http {
  import opened Bytes
  import opened Wrappers

  type Headers = seq<(string, string)>

  /** The parsed request body, as `request.json()` returns it. */
  datatype Json =
    | Null
    | Bool(b: bool)
    | Number(n: int)
    | Str(s: string)
    | Array(items: seq<Json>)
    | Object(members: seq<(string, Json)>)

  datatype Request = Request(httpMethod: string, url: string, headers: Headers, body: Chunk)

  /** What the downstream handler returns: its body is a single-pass iterator,
      modelled as the finite list of chunks it would produce. */
  datatype Response = Response(status: int, headers: Headers, mediaType: Option<string>, body: seq<Chunk>)

  ghost predicate HasName(h: Headers, name: string)
  {
    exists i :: 0 <= i < |h| && h[i].0 == name
  }

  ghost predicate DistinctNames(h: Headers)
  {
    forall i, j :: 0 <= i < j < |h| ==> h[i].0 != h[j].0
  }

  /** `headers.get(name, default)`: the value of the first pair named `name`. */
  function Get(h: Headers, name: string, default: string): (v: string)
    ensures !HasName(h, name) ==> v == default
    ensures HasName(h, name) ==>
      exists i :: 0 <= i < |h| && h[i] == (name, v) && forall j :: 0 <= j < i ==> h[j].0 != name
  {
    if h == [] then default
    else if h[0].0 == name then h[0].1
    else
      var v := Get(h[1..], name, default);
      assert HasName(h, name) ==> HasName(h[1..], name) by {
        if HasName(h, name) {
          var i :| 0 <= i < |h| && h[i].0 == name;
          assert h[1..][i - 1].0 == name;
        }
      }
      assert HasName(h[1..], name) ==> HasName(h, name) by {
        if HasName(h[1..], name) {
          var i :| 0 <= i < |h[1..]| && h[1..][i].0 == name;
          assert h[i + 1].0 == name;
        }
      }
      assert HasName(h, name) ==>
          exists i :: 0 <= i < |h| && h[i] == (name, v) && forall j :: 0 <= j < i ==> h[j].0 != name by {
        if HasName(h, name) {
          var i :| 0 <= i < |h[1..]| && h[1..][i] == (name, v) && forall j :: 0 <= j < i ==> h[1..][j].0 != name;
          assert h[i + 1] == (name, v);
          forall j | 0 <= j < i + 1 ensures h[j].0 != name {
            if j > 0 { assert h[j] == h[1..][j - 1]; }
          }
        }
      }
      v
  }

  /** `dict(headers)` for a Starlette header list: one entry per name, holding
      that name's first value, in order of first appearance. */
  function DictOf(h: Headers): Headers
  {
    DictFrom(h, {})
  }

  /** The entries `dict(...)` adds for `h` once the names in `seen` are taken. */
  function DictFrom(h: Headers, seen: set<string>): Headers
  {
    if h == [] then []
    else if h[0].0 in seen then DictFrom(h[1..], seen)
    else [h[0]] + DictFrom(h[1..], seen + {h[0].0})
  }

  /** When no name repeats, `dict(headers)` hands back the very same list:
      the rebuilt response carries the downstream headers unchanged. */
  lemma DictOfDistinct(h: Headers)
    requires DistinctNames(h)
    ensures DictOf(h) == h
  {
    DictFromDistinct(h, {});
  }

  lemma {:induction false} DictFromDistinct(h: Headers, seen: set<string>)
    requires DistinctNames(h)
    requires forall i :: 0 <= i < |h| ==> h[i].0 !in seen
    ensures DictFrom(h, seen) == h
  {
    if h != [] {
      forall i | 0 <= i < |h[1..]| ensures h[1..][i].0 !in seen + {h[0].0} {
        assert h[1..][i] == h[i + 1];
      }
      DictFromDistinct(h[1..], seen + {h[0].0});
    }
  }

  /** Looking a name up in `dict(headers)` gives what looking it up in the
      header list gives: the first value always survives. */
  lemma DictOfGet(h: Headers, name: string, default: string)
    ensures Get(DictOf(h), name, default) == Get(h, name, default)
  {
    DictFromGet(h, {}, name, default);
  }

  lemma {:induction false} DictFromGet(h: Headers, seen: set<string>, name: string, default: string)
    requires name !in seen
    ensures Get(DictFrom(h, seen), name, default) == Get(h, name, default)
  {
    if h != [] {
      if h[0].0 in seen {
        DictFromGet(h[1..], seen, name, default);
      } else if h[0].0 != name {
        DictFromGet(h[1..], seen + {h[0].0}, name, default);
      }
    }
  }

  /** But a repeated name keeps only its first value: two `set-cookie` headers
      come out of `dict(...)` as one. */
  lemma DictOfDropsRepeats()
    ensures DictOf([("set-cookie", "a=1"), ("set-cookie", "b=2")]) == [("set-cookie", "a=1")]
  {
    var h: Headers := [("set-cookie", "a=1"), ("set-cookie", "b=2")];
    var rest: Headers := [("set-cookie", "b=2")];
    assert h[0].0 !in {} && h[1..] == rest;
    assert rest[0].0 in {"set-cookie"} && rest[1..] == [];
    assert DictFrom(rest, {"set-cookie"}) == [];
    assert DictFrom(h, {}) == [h[0]] + DictFrom(rest, {} + {"set-cookie"});
  }
}
