/**
 * Filling a plain JavaScript object by successive property writes
 * (`obj[key] = value`), the way the compiler builds its maps. Every value
 * written is itself an object.
 */
module JsObjects {

  /**
   * The one key a write does not store. `obj['__proto__'] = v` runs the
   * setter inherited from `Object.prototype`: with an object `v` it replaces
   * the prototype and leaves the own properties as they were.
   */
  const PROTO: string := "__proto__"

  /** `obj[k] = v` for an object value `v`: an own property, except for `__proto__`. */
  function Assign<V>(m: map<string, V>, k: string, v: V): map<string, V> {
    if k == PROTO then m else m[k := v]
  }

  /** `m` after the writes, in order; a later write to a key replaces an earlier one. */
  function AssignAll<V>(m: map<string, V>, writes: seq<(string, V)>): map<string, V>
    decreases |writes|
  {
    if writes == [] then m
    else Assign(AssignAll(m, writes[..|writes| - 1]), writes[|writes| - 1].0, writes[|writes| - 1].1)
  }

  /** The keys written to. */
  function WrittenKeys<V>(writes: seq<(string, V)>): set<string> {
    set i | 0 <= i < |writes| :: writes[i].0
  }

  /** The keys of the result are the initial keys plus every key written, except `__proto__`. */
  lemma {:induction false} AssignAllKeys<V>(m: map<string, V>, writes: seq<(string, V)>)
    ensures AssignAll(m, writes).Keys == m.Keys + (WrittenKeys(writes) - {PROTO})
    decreases |writes|
  {
    if writes != [] {
      var n := |writes| - 1;
      AssignAllKeys(m, writes[..n]);
      assert WrittenKeys(writes) == WrittenKeys(writes[..n]) + {writes[n].0} by {
        forall k | k in WrittenKeys(writes) ensures k in WrittenKeys(writes[..n]) + {writes[n].0} {
          var i :| 0 <= i < |writes| && writes[i].0 == k;
          if i < n { assert writes[..n][i] == writes[i]; }
        }
        forall k | k in WrittenKeys(writes[..n]) ensures k in WrittenKeys(writes) {
          var i :| 0 <= i < n && writes[..n][i].0 == k;
          assert writes[i] == writes[..n][i];
        }
      }
    }
  }

  /** A key other than `__proto__` holds the value of the last write to it. */
  lemma {:induction false} AssignAllLastWins<V>(m: map<string, V>, writes: seq<(string, V)>, i: nat)
    requires i < |writes| && writes[i].0 != PROTO
    requires forall j :: i < j < |writes| ==> writes[j].0 != writes[i].0
    ensures writes[i].0 in AssignAll(m, writes) && AssignAll(m, writes)[writes[i].0] == writes[i].1
    decreases |writes|
  {
    var n := |writes| - 1;
    if i < n {
      AssignAllLastWins(m, writes[..n], i);
    }
  }

  /** Writes to `__proto__` never create or change an own `__proto__` property. */
  lemma {:induction false} AssignAllProto<V>(m: map<string, V>, writes: seq<(string, V)>)
    ensures PROTO in AssignAll(m, writes) <==> PROTO in m
    ensures PROTO in m ==> AssignAll(m, writes)[PROTO] == m[PROTO]
    decreases |writes|
  {
    if writes != [] {
      AssignAllProto(m, writes[..|writes| - 1]);
    }
  }
}
