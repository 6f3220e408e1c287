/**
 * `urlResolve(...urls)`: joins path segments, wrapping each in slashes,
 * then makes one pass that turns `//` into `/`. The path normaliser it
 * applies to every argument (`normalizePath`) is not part of this model
 * and is a parameter.
 */
module UrlResolve {

  /** What one normalised argument contributes: `/` and `//` as they are, anything else wrapped in slashes. */
  function Piece(url: string): string {
    if url == "//" || url == "/" then url else "/" + url + "/"
  }

  /** The accumulator after every argument has been appended. */
  function Joined(urls: seq<string>, normalize: string -> string): string
    decreases |urls|
  {
    if urls == [] then "" else Piece(normalize(urls[0])) + Joined(urls[1..], normalize)
  }

  /** `s.replace(/\/\//g, '/')`: a single left-to-right pass over non-overlapping `//` pairs. */
  function CollapseSlashes(s: string): (r: string)
    ensures |r| <= |s|
    decreases |s|
  {
    if |s| >= 2 && s[0] == '/' && s[1] == '/' then "/" + CollapseSlashes(s[2..])
    else if s == [] then []
    else [s[0]] + CollapseSlashes(s[1..])
  }

  function Resolved(urls: seq<string>, normalize: string -> string): string {
    CollapseSlashes(Joined(urls, normalize))
  }

  method Resolve(urls: seq<string>, normalize: string -> string) returns (r: string)
    ensures r == Resolved(urls, normalize)
    ensures urls == [] ==> r == ""
  {
    var resolved := "";
    var i := 0;
    while i < |urls|
      invariant 0 <= i <= |urls|
      invariant resolved == Joined(urls[..i], normalize)
    {
      var url := normalize(urls[i]);
      resolved := resolved + Piece(url);
      assert urls[..i + 1] == urls[..i] + [urls[i]];
      JoinedAppend(urls[..i], [urls[i]], normalize);
      i := i + 1;
    }
    assert urls[..|urls|] == urls;
    r := CollapseSlashes(resolved);
  }

  /** Arguments contribute left to right: earlier arguments stay to the left. */
  lemma {:induction false} JoinedAppend(a: seq<string>, b: seq<string>, normalize: string -> string)
    ensures Joined(a + b, normalize) == Joined(a, normalize) + Joined(b, normalize)
    decreases |a|
  {
    if a == [] {
      assert a + b == b;
    } else {
      assert (a + b)[1..] == a[1..] + b;
      JoinedAppend(a[1..], b, normalize);
    }
  }

  /** The joined path the source intends: `s1/s2/.../sn/` (without the leading slash). */
  function SlashJoined(segs: seq<string>): string {
    if segs == [] then "" else segs[0] + "/" + SlashJoined(segs[1..])
  }

  /** A non-empty, slash-free segment that the normaliser leaves alone. */
  predicate PlainSegment(seg: string, normalize: string -> string) {
    seg != "" && '/' !in seg && normalize(seg) == seg
  }

  /** The collapsing pass copies a slash-free prefix unchanged. */
  lemma {:induction false} CollapseSlashFree(x: string, y: string)
    requires '/' !in x
    ensures CollapseSlashes(x + y) == x + CollapseSlashes(y)
    decreases |x|
  {
    if x == [] {
      assert x + y == y;
    } else {
      assert x[0] in x;
      assert (x + y)[0] == x[0];
      assert (x + y)[1..] == x[1..] + y;
      assert '/' !in x[1..] by {
        forall i | 0 <= i < |x[1..]| ensures x[1..][i] != '/' { assert x[1..][i] == x[i + 1]; }
      }
      CollapseSlashFree(x[1..], y);
      assert [x[0]] + x[1..] == x;
    }
  }

  /** A slash followed by a plain segment passes through the collapsing pass unchanged. */
  lemma CollapseOpen(u: string, t: string)
    requires u != "" && '/' !in u
    ensures CollapseSlashes("/" + u + t) == "/" + u + CollapseSlashes(t)
  {
    var s := "/" + u + t;
    assert u[0] in u;
    assert s[1] == u[0] && s[1..] == u + t;
    CollapseSlashFree(u, t);
  }

  /** A doubled slash before a plain segment collapses to one. */
  lemma CollapseDoubled(u: string, t: string)
    requires u != "" && '/' !in u
    ensures CollapseSlashes("/" + "/" + u + t) == "/" + u + CollapseSlashes(t)
  {
    var s := "/" + "/" + u + t;
    assert s[2..] == u + t;
    CollapseSlashFree(u, t);
  }

  /**
   * For plain segments `s1 … sn` (n >= 1), `urlResolve(s1, …, sn)` is
   * `/s1/s2/…/sn/`: root first, one slash between segments, trailing slash kept.
   */
  lemma {:induction false} ResolveSegments(segs: seq<string>, normalize: string -> string)
    requires |segs| >= 1
    requires forall k :: 0 <= k < |segs| ==> PlainSegment(segs[k], normalize)
    ensures Resolved(segs, normalize) == "/" + SlashJoined(segs)
    decreases |segs|
  {
    var u, rest := segs[0], segs[1..];
    assert u != "/" && u != "//" by {
      assert "/"[0] == '/' && "//"[0] == '/';
      assert u[0] in u;
    }
    assert Joined(segs, normalize) == "/" + u + ("/" + Joined(rest, normalize));
    if rest == [] {
      CollapseOpen(u, "/");
      assert CollapseSlashes("/") == "/" by { assert "/"[1..] == ""; }
      assert SlashJoined(segs) == u + "/";
    } else {
      var r0, tail := rest[0], "/" + Joined(rest[1..], normalize);
      assert r0 != "/" && r0 != "//" by {
        assert "/"[0] == '/' && "//"[0] == '/';
        assert PlainSegment(segs[1], normalize);
        assert r0[0] in r0;
      }
      assert Joined(rest, normalize) == "/" + r0 + tail;
      assert "/" + Joined(rest, normalize) == "/" + "/" + r0 + tail;
      calc {
        Resolved(segs, normalize);
        CollapseSlashes("/" + u + ("/" + "/" + r0 + tail));
        { CollapseOpen(u, "/" + "/" + r0 + tail); }
        "/" + u + CollapseSlashes("/" + "/" + r0 + tail);
        { CollapseDoubled(r0, tail); }
        "/" + u + ("/" + r0 + CollapseSlashes(tail));
        { CollapseOpen(r0, tail); }
        "/" + u + CollapseSlashes(Joined(rest, normalize));
        { ResolveSegments(rest, normalize); }
        "/" + u + ("/" + SlashJoined(rest));
        "/" + SlashJoined(segs);
      }
    }
  }

  /** Collapsing is a single pass, not a fixpoint: three slashes leave two. */
  lemma CollapseThreeSlashes()
    ensures CollapseSlashes("///") == "//"
    ensures CollapseSlashes(CollapseSlashes("///")) == "/"
  {
    assert "///"[2..] == "/";
  }
}
