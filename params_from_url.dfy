/**
 * `pullOutParamsFromUrl(path)`: one parameter per `/`-separated segment
 * that opens with `:`, named by the rest of that segment. The registry's
 * `generateParamMeta` is kept symbolic: each parameter is the `ParamMeta`
 * it is called with (a name, no type, no `required`).
 */
module ParamsFromUrl {
  import opened Wrappers
  import opened JsStrings
  import opened Registry

  /** `part.indexOf(':') === 0`: the segment opens with a colon. */
  function IsTokenSegment(seg: string): (r: bool)
    ensures r <==> |seg| > 0 && seg[0] == ':'
  {
    IndexOfZero(seg, ":");
    IndexOf(seg, ":") == 0
  }

  /** Keep the token segments, in order, each without its leading colon. */
  function TokenNames(segs: seq<string>): seq<string> {
    if segs == [] then []
    else (if IsTokenSegment(segs[0]) then [segs[0][1..]] else []) + TokenNames(segs[1..])
  }

  function PullOutParamsFromUrl(path: string): (params: seq<ParamMeta>)
    ensures |params| == |TokenNames(Split(path, '/'))|
    ensures forall i :: 0 <= i < |params| ==>
      params[i] == ParamMeta(TokenNames(Split(path, '/'))[i], None, None)
  {
    var names := TokenNames(Split(path, '/'));
    seq(|names|, i requires 0 <= i < |names| => ParamMeta(names[i], None, None))
  }

  /** Extraction works segment by segment: the names of `a + b` are those of `a`, then those of `b`. */
  lemma {:induction false} TokenNamesAppend(a: seq<string>, b: seq<string>)
    ensures TokenNames(a + b) == TokenNames(a) + TokenNames(b)
    decreases |a|
  {
    if a == [] {
      assert a + b == b;
    } else {
      assert (a + b)[0] == a[0] && (a + b)[1..] == a[1..] + b;
      TokenNamesAppend(a[1..], b);
    }
  }

  /** Segments with no colon at all yield no names. */
  lemma {:induction false} TokenNamesColonFree(segs: seq<string>)
    requires forall k :: 0 <= k < |segs| ==> ':' !in segs[k]
    ensures TokenNames(segs) == []
    decreases |segs|
  {
    if segs != [] {
      assert segs[0] != [] ==> segs[0][0] in segs[0];
      TokenNamesColonFree(segs[1..]);
    }
  }

  /** For a path written as slash-free segments, the parameters are those of the token segments, in order. */
  lemma PullOutFromSegments(segs: seq<string>)
    requires |segs| >= 1
    requires forall k :: 0 <= k < |segs| ==> '/' !in segs[k]
    ensures var params := PullOutParamsFromUrl(JoinWith(segs, '/'));
      |params| == |TokenNames(segs)| &&
      forall i :: 0 <= i < |params| ==> params[i] == ParamMeta(TokenNames(segs)[i], None, None)
  {
    SplitJoin(segs, '/');
  }

  /** A path without any colon has no parameters. */
  lemma PullOutColonFree(path: string)
    requires ':' !in path
    ensures PullOutParamsFromUrl(path) == []
  {
    var segs := Split(path, '/');
    forall k | 0 <= k < |segs| ensures ':' !in segs[k] {
      if ':' in segs[k] {
        JoinWithContains(segs, '/', k, ':');
      }
    }
    TokenNamesColonFree(segs);
  }

  lemma ExampleSegmentsJoin()
    ensures JoinWith(["", "users", ":id", "a:b", ":"], '/') == "/users/:id/a:b/:"
  {
    var segs := ["", "users", ":id", "a:b", ":"];
    assert JoinWith(segs[1..], '/') == "users/:id/a:b/:" by {
      assert segs[2..] == [":id", "a:b", ":"] && segs[3..] == ["a:b", ":"] && segs[4..] == [":"];
      assert JoinWith(segs[3..], '/') == "a:b/:";
      assert JoinWith(segs[2..], '/') == ":id/a:b/:";
    }
  }

  lemma ExampleSegmentsNames()
    ensures TokenNames(["", "users", ":id", "a:b", ":"]) == ["id", ""]
  {
    var segs := ["", "users", ":id", "a:b", ":"];
    assert ":id"[1..] == "id" && ":"[1..] == "";
    TokenNamesAppend(segs[..2], segs[2..]);
    assert segs[..2] + segs[2..] == segs;
    assert TokenNames(segs[..2]) == [];
    assert segs[2..][1..] == ["a:b", ":"] && segs[2..][1..][1..] == [":"];
    assert TokenNames(segs[2..]) == ["id", ""];
  }

  /**
   * `/users/:id/a:b/:` gives `id` and then the empty name: `a:b` is not a
   * token (its colon is not first) and a bare `:` is one.
   */
  lemma PullOutExample(path: string)
    requires path == "/users/:id/a:b/:"
    ensures PullOutParamsFromUrl(path) == [ParamMeta("id", None, None), ParamMeta("", None, None)]
  {
    var segs := ["", "users", ":id", "a:b", ":"];
    ExampleSegmentsJoin();
    ExampleSegmentsNames();
    assert forall k :: 0 <= k < |segs| ==> '/' !in segs[k] by {
      assert '/' !in "users" && '/' !in ":id" && '/' !in "a:b" && '/' !in ":";
    }
    PullOutFromSegments(segs);
    var params := PullOutParamsFromUrl(path);
    assert |params| == 2;
    assert params[0] == ParamMeta("id", None, None);
    assert params[1] == ParamMeta("", None, None);
  }
}
