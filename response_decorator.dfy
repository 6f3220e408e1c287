/**
 * The `Response` method decorator and `addResponseType`: the `[]`-suffix
 * rule on a response type, and the registry call each one makes.
 */
module ResponseDecorator {
  import opened Wrappers
  import opened JsStrings
  import opened Registry

  /**
   * The rule at the start of `Response`, on (type, isArray): when `isArray`
   * is false and the first `[]` of the type starts two characters before its
   * end, the type loses its last two characters and becomes an array.
   */
  function NormaliseArraySuffix(responseType: string, isArray: bool): (r: (string, bool))
    ensures isArray ==> r == (responseType, true)
    ensures |r.0| <= |responseType| && r.0 == responseType[..|r.0|]
    ensures r.1 == isArray ==> r.0 == responseType
  {
    if !isArray && IndexOf(responseType, "[]") == |responseType| - 2 then
      (SliceTo(responseType, |responseType| - 2), true)
    else (responseType, isArray)
  }

  /** The type ends in `[]` and has no earlier `[]`. */
  predicate OnlyTrailingBrackets(t: string) {
    && OccursAt(t, "[]", |t| - 2)
    && forall j {:trigger OccursAt(t, "[]", j)} :: 0 <= j < |t| - 2 ==> !OccursAt(t, "[]", j)
  }

  /** No `[]` starts among the first `n` characters when none of them is `[`. */
  lemma NoBracketsBefore(t: string, n: nat)
    requires n <= |t| && '[' !in t[..n]
    ensures forall j {:trigger OccursAt(t, "[]", j)} :: 0 <= j < n ==> !OccursAt(t, "[]", j)
  {
    forall j | 0 <= j < n ensures !OccursAt(t, "[]", j) {
      assert t[..n][j] in t[..n];
    }
  }

  /** Declaring the type an array leaves it untouched, even when it ends in `[]`. */
  lemma ArrayFlagKeepsType(t: string)
    ensures NormaliseArraySuffix(t, true) == (t, true)
  {
  }

  /**
   * With `isArray` false, the rule fires exactly for a type whose only `[]`
   * ends it, and then strips it; and, since `-1 === 1 - 2`, for every
   * one-character type, which becomes an array of the empty type. Otherwise
   * the type is kept as it is.
   */
  lemma ArraySuffixRule(t: string)
    ensures NormaliseArraySuffix(t, false).1 <==> OnlyTrailingBrackets(t) || |t| == 1
    ensures OnlyTrailingBrackets(t) ==> NormaliseArraySuffix(t, false).0 + "[]" == t
    ensures |t| == 1 ==> NormaliseArraySuffix(t, false) == ("", true)
    ensures !NormaliseArraySuffix(t, false).1 ==> NormaliseArraySuffix(t, false).0 == t
  {
    var k := IndexOf(t, "[]");
    if |t| == 1 {
      assert forall j :: !OccursAt(t, "[]", j);
    } else if |t| >= 2 {
      if OnlyTrailingBrackets(t) {
        assert k == |t| - 2;
        assert t[..|t| - 2] + t[|t| - 2..] == t;
      }
    }
  }

  /** A type with an earlier `[]`, such as `a[]b[]`, is not normalised: `indexOf` finds the first pair. */
  lemma EarlierBracketsBlockRule(t: string)
    requires t == "a[]b[]"
    ensures NormaliseArraySuffix(t, false) == (t, false)
  {
    assert OccursAt(t, "[]", 1);
    assert IndexOf(t, "[]") <= 1;
  }

  /** The empty type is not affected. */
  lemma EmptyTypeKept()
    ensures NormaliseArraySuffix("", false) == ("", false)
  {
  }

  /**
   * `Response(status, responseType, isArray, description)` on method
   * `methodName` of class `nodeName`: one `upsertResponse` call, keyed by
   * class, method and status. Absent arguments take the defaults `'string'`,
   * `false` and `'OK'`.
   */
  function Response(status: nat, responseType: Option<string>, isArray: Option<bool>, description: Option<string>,
                    nodeName: string, methodName: string): (c: Command)
    ensures c.UpsertResponse? && c.nodeName == nodeName && c.endpointName == methodName
    ensures c.status == status && c.response.status == status
    ensures c.response.description == description.GetOr("OK")
    ensures (c.response.responseType, c.response.isArray) == NormaliseArraySuffix(responseType.GetOr(STRING), isArray.GetOr(false))
  {
    var (ty, asArray) := NormaliseArraySuffix(responseType.GetOr("string"), isArray.GetOr(false));
    var response := ResponseRecord(status, ty, asArray, description.GetOr("OK"));
    UpsertResponse(nodeName, methodName, response.status, response)
  }

  /** With no arguments but the status, the response is a non-array `'string'` described as `'OK'`. */
  lemma ResponseDefaults(status: nat, nodeName: string, methodName: string)
    ensures Response(status, None, None, None, nodeName, methodName).response
      == ResponseRecord(status, STRING, false, "OK")
  {
    NoBracketsBefore(STRING, |STRING|);
  }

  /** `'#/Widget[]'` records the same response as `'#/Widget'` declared an array. */
  lemma WidgetArrayExample(t: string, status: nat, description: Option<string>, nodeName: string, methodName: string)
    requires t == "#/Widget[]"
    ensures NormaliseArraySuffix(t, false) == ("#/Widget", true)
    ensures Response(status, Some(t), None, description, nodeName, methodName)
      == Response(status, Some("#/Widget"), Some(true), description, nodeName, methodName)
  {
    assert OccursAt(t, "[]", 8);
    NoBracketsBefore(t, 8);
    ArraySuffixRule(t);
    assert t[..8] == "#/Widget";
  }

  /** `addResponseType(name, scheme, isArray)`: one `createResponseType` call; the kind is `Array` iff `isArray`. */
  function AddResponseType(name: string, scheme: seq<SchemeEntry>, isArray: Option<bool>): (c: Command)
    ensures c.CreateResponseType? && c.typeName == name && c.scheme == scheme
    ensures c.kind == ARRAY <==> isArray == Some(true)
    ensures c.kind == OBJECT <==> isArray != Some(true)
  {
    var kind := if isArray.GetOr(false) then ARRAY else OBJECT;
    CreateResponseType(name, scheme, kind)
  }
}
