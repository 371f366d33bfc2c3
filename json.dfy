/**
  The already-parsed JSON document the converter works on, and Python's
  `dict.get` on it.
 */
module JsonValue {

  datatype Option<T> = None | Some(value: T)

  /** A value as `json.load` returns it. `Num` is a JSON number with a
      fraction or exponent (a Python float), kept as the text Python's `str`
      prints for it: the converter only passes such values through. An
      object is a Python dict; the order of its keys is never observed by
      the converter, so it is a map. */
  datatype Json =
    | Null
    | Bool(b: bool)
    | Int(i: int)
    | Num(text: string)
    | Str(s: string)
    | Array(items: seq<Json>)
    | Object(fields: map<string, Json>)

  /** One result record: a JSON object's fields. */
  type Record = map<string, Json>

  /** Values that are neither lists nor dicts. */
  predicate IsScalar(v: Json) {
    !v.Array? && !v.Object?
  }

  /** Python's `d.get(key, default)`: a present key wins whatever its value. */
  function Get(d: Record, key: string, default: Json): Json {
    if key in d then d[key] else default
  }

  /** Ordered lookup with fallback, the chain
      `d.get(k0, d.get(k1, ... default))`. */
  function FirstPresent(d: Record, keys: seq<string>, default: Json): Json {
    if keys == [] then default
    else Get(d, keys[0], FirstPresent(d, keys[1..], default))
  }

  /** `keys[j]` is the first of `keys` present in `d`. */
  predicate FirstPresentAt(d: Record, keys: seq<string>, j: nat) {
    j < |keys| && keys[j] in d && forall k :: 0 <= k < j ==> keys[k] !in d
  }

  /** The first present key wins, whatever its value (even `null`); the
      default is used only when no candidate key is present. */
  lemma {:induction false} FirstPresentWins(d: Record, keys: seq<string>, default: Json)
    ensures forall j: nat :: FirstPresentAt(d, keys, j) ==> FirstPresent(d, keys, default) == d[keys[j]]
    ensures (forall j :: 0 <= j < |keys| ==> keys[j] !in d) ==> FirstPresent(d, keys, default) == default
  {
    if keys != [] {
      FirstPresentWins(d, keys[1..], default);
      forall j: nat | FirstPresentAt(d, keys, j) && j > 0 ensures FirstPresentAt(d, keys[1..], j - 1) {
        assert keys[0] !in d;
      }
    }
  }

  /** Unfolds a two-key chain. */
  lemma FirstPresentTwo(d: Record, k0: string, k1: string, default: Json)
    ensures FirstPresent(d, [k0, k1], default) == Get(d, k0, Get(d, k1, default))
  {
    assert [k0, k1][1..] == [k1];
    assert [k1][1..] == [];
    assert FirstPresent(d, [k1], default) == Get(d, k1, FirstPresent(d, [], default));
  }

  /** Unfolds a three-key chain. */
  lemma FirstPresentThree(d: Record, k0: string, k1: string, k2: string, default: Json)
    ensures FirstPresent(d, [k0, k1, k2], default) == Get(d, k0, Get(d, k1, Get(d, k2, default)))
  {
    assert [k0, k1, k2][1..] == [k1, k2];
    FirstPresentTwo(d, k1, k2, default);
  }
}
