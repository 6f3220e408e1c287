/**
 * The compiler's string helpers: path templating (`convertToSwaggerUrl`)
 * and type references (`isReference`, `createSwaggerReference`).
 */
module SwaggerHelpers {
  import opened JsStrings

  predicate IsAsciiLetter(c: char) {
    'a' <= c <= 'z' || 'A' <= c <= 'Z'
  }

  /** The length of the longest prefix of `s` made of ASCII letters. */
  function LetterRun(s: string): (n: nat)
    ensures n <= |s|
    ensures forall i :: 0 <= i < n ==> IsAsciiLetter(s[i])
    ensures n < |s| ==> !IsAsciiLetter(s[n])
  {
    if s != [] && IsAsciiLetter(s[0]) then 1 + LetterRun(s[1..]) else 0
  }

  /**
   * First pass, `url.replace(/:[a-zA-Z]*\/g, '$${$&}')`: every match, a colon
   * and the letters after it, is replaced by `${` + the match + `}` (in a JS
   * replacement string `$$` is a literal `$` and `$&` the match).
   */
  function WrapTokens(s: string): string
    decreases |s|
  {
    if s == [] then []
    else if s[0] == ':' then
      var n := LetterRun(s[1..]);
      "${" + s[..n + 1] + "}" + WrapTokens(s[n + 1..])
    else [s[0]] + WrapTokens(s[1..])
  }

  /** Second pass, `.replace(/:/g, '')`. */
  function RemoveColons(s: string): (r: string)
    ensures ':' !in r
    ensures |r| <= |s|
  {
    if s == [] then [] else (if s[0] == ':' then [] else [s[0]]) + RemoveColons(s[1..])
  }

  /**
   * `convertToSwaggerUrl`: no colon survives, and a path without a colon
   * comes back unchanged (`ConvertToSwaggerUrlColons`, `ConvertIsTemplated`).
   */
  function ConvertToSwaggerUrl(url: string): (r: string)
    ensures ':' !in r
  {
    RemoveColons(WrapTokens(url))
  }

  /**
   * What the two passes amount to: each colon with the maximal run of
   * ASCII letters after it becomes `${letters}`; everything else is kept.
   */
  function Templated(s: string): string
    decreases |s|
  {
    if s == [] then []
    else if s[0] == ':' then
      var n := LetterRun(s[1..]);
      "${" + s[1..n + 1] + "}" + Templated(s[n + 1..])
    else [s[0]] + Templated(s[1..])
  }

  lemma {:induction false} RemoveColonsAppend(a: string, b: string)
    ensures RemoveColons(a + b) == RemoveColons(a) + RemoveColons(b)
    decreases |a|
  {
    if a == [] {
      assert a + b == b;
    } else {
      assert (a + b)[0] == a[0] && (a + b)[1..] == a[1..] + b;
      RemoveColonsAppend(a[1..], b);
    }
  }

  lemma {:induction false} RemoveColonsIdentity(s: string)
    requires ':' !in s
    ensures RemoveColons(s) == s
    decreases |s|
  {
    if s != [] {
      assert s[0] in s;
      assert ':' !in s[1..] by {
        forall i | 0 <= i < |s[1..]| ensures s[1..][i] != ':' { assert s[1..][i] == s[i + 1]; }
      }
      RemoveColonsIdentity(s[1..]);
      assert [s[0]] + s[1..] == s;
    }
  }

  /** The second pass on one wrapped token: only the token's own colon goes. */
  lemma RemoveColonsWrapped(letters: string, w: string)
    requires ':' !in letters
    ensures RemoveColons("${" + ([':'] + letters) + "}" + w) == "${" + letters + "}" + RemoveColons(w)
  {
    calc {
      RemoveColons("${" + ([':'] + letters) + "}" + w);
      { RemoveColonsAppend("${" + ([':'] + letters) + "}", w); }
      RemoveColons("${" + ([':'] + letters) + "}") + RemoveColons(w);
      { RemoveColonsAppend("${" + ([':'] + letters), "}");
        RemoveColonsIdentity("}"); }
      RemoveColons("${" + ([':'] + letters)) + "}" + RemoveColons(w);
      { RemoveColonsAppend("${", [':'] + letters);
        RemoveColonsIdentity("${"); }
      "${" + RemoveColons([':'] + letters) + "}" + RemoveColons(w);
      { RemoveColonsAppend([':'], letters);
        RemoveColonsIdentity(letters); }
      "${" + letters + "}" + RemoveColons(w);
    }
  }

  /** `convertToSwaggerUrl` turns every `:letters` into `${letters}` and keeps the rest. */
  lemma {:induction false} ConvertIsTemplated(s: string)
    ensures ConvertToSwaggerUrl(s) == Templated(s)
    decreases |s|
  {
    if s != [] {
      if s[0] == ':' {
        var n := LetterRun(s[1..]);
        var letters, rest := s[1..n + 1], s[n + 1..];
        assert ':' !in letters by {
          forall i | 0 <= i < |letters| ensures letters[i] != ':' {
            assert letters[i] == s[1..][i];
          }
        }
        assert s[..n + 1] == [':'] + letters;
        calc {
          ConvertToSwaggerUrl(s);
          RemoveColons("${" + ([':'] + letters) + "}" + WrapTokens(rest));
          { RemoveColonsWrapped(letters, WrapTokens(rest)); }
          "${" + letters + "}" + ConvertToSwaggerUrl(rest);
          { ConvertIsTemplated(rest); }
          "${" + letters + "}" + Templated(rest);
          Templated(s);
        }
      } else {
        RemoveColonsAppend([s[0]], WrapTokens(s[1..]));
        ConvertIsTemplated(s[1..]);
      }
    }
  }

  /** Text without a colon passes through unchanged. */
  lemma {:induction false} TemplatedPlainPrefix(x: string, y: string)
    requires ':' !in x
    ensures Templated(x + y) == x + Templated(y)
    decreases |x|
  {
    if x == [] {
      assert x + y == y;
    } else {
      assert x[0] in x;
      assert ':' !in x[1..] by {
        forall i | 0 <= i < |x[1..]| ensures x[1..][i] != ':' { assert x[1..][i] == x[i + 1]; }
      }
      assert (x + y)[0] == x[0] && (x + y)[1..] == x[1..] + y;
      TemplatedPlainPrefix(x[1..], y);
      assert [x[0]] + x[1..] == x;
    }
  }

  /** The result never contains a colon, and a colon-free path is unchanged. */
  lemma ConvertToSwaggerUrlColons(url: string)
    ensures ':' !in ConvertToSwaggerUrl(url)
    ensures ':' !in url ==> ConvertToSwaggerUrl(url) == url
  {
    if ':' !in url {
      ConvertIsTemplated(url);
      TemplatedPlainPrefix(url, "");
      assert url + "" == url;
    }
  }

  /** A path token `:id` gives `${id}` (with the dollar sign, not `{id}`). */
  lemma ConvertExampleToken(a: string)
    requires a == "/users/:id"
    ensures ConvertToSwaggerUrl(a) == "/users/${id}"
  {
    ConvertIsTemplated(a);
    var t := a[7..];
    assert LetterRun(t[1..]) == 2 by {
      assert t[1..] == "id" && "id"[1..] == "d" && "d"[1..] == "";
    }
    assert Templated(t) == "${id}" by {
      assert t[3..] == "";
    }
    assert a == "/users/" + t;
    TemplatedPlainPrefix("/users/", t);
  }

  /** Only the letters after the colon are wrapped: `:user_id` becomes `${user}_id`. */
  lemma ConvertExampleUnderscore(b: string)
    requires b == ":user_id"
    ensures ConvertToSwaggerUrl(b) == "${user}_id"
  {
    ConvertIsTemplated(b);
    assert LetterRun(b[1..]) == 4 by {
      assert b[1..] == "user_id";
      assert b[1..][4] == '_';
    }
    assert Templated(b[5..]) == "_id" by {
      assert ':' !in b[5..];
      TemplatedPlainPrefix(b[5..], "");
      assert b[5..] + "" == b[5..];
    }
  }

  /** A lone colon becomes an empty placeholder `${}`. */
  lemma ConvertExampleLoneColon(c: string)
    requires c == ":"
    ensures ConvertToSwaggerUrl(c) == "${}"
  {
    ConvertIsTemplated(c);
    assert c[1..] == "";
  }

  /** `type.indexOf('#/') === 0`: the type names a shared schema. */
  function IsReference(ty: string): (r: bool)
    ensures r <==> |ty| >= 2 && ty[..2] == "#/"
  {
    IndexOfZero(ty, "#/");
    IndexOf(ty, "#/") == 0
  }

  /** `type.replace('#/', '#/definitions/')`: a reference `#/X` becomes `#/definitions/X`. */
  function CreateSwaggerReference(ty: string): (r: string)
    ensures IsReference(ty) ==> r == "#/definitions/" + ty[2..]
    ensures IsReference(ty) ==> IsReference(r)
  {
    ReplaceFirst(ty, "#/", "#/definitions/")
  }
}
