/** PHP values as the configuration and decoded JSON bodies hold them, PHP's
    `??`, and `array_replace_recursive`, which `Hyper::make` uses to
    lay provided configuration over the default configuration. */
module Values {
  import opened Wrappers

  /** A PHP value. Arrays are maps from key to value: integer keys are written as
      their decimal strings, and the order of entries is not modelled. Floats and
      objects do not occur in this model. */
  datatype Value =
    | Null
    | Bool(b: bool)
    | Int(i: int)
    | Str(s: string)
    | Arr(items: PhpArray)

  type PhpArray = map<string, Value>

  /** PHP `$a[$k] ?? $default`: the entry when it is set and not null. */
  function Coalesce(a: PhpArray, k: string, default: Value): (r: Value)
    ensures k in a && a[k] != Null ==> r == a[k]
    ensures (k !in a || a[k] == Null) ==> r == default
  {
    if k in a && a[k] != Null then a[k] else default
  }

  /** PHP `array_replace_recursive($base, $replacement)`: every key of
      `replacement` replaces the entry of `base`, except that where both entries
      are arrays they are merged the same way; keys only `base` has are kept. */
  function ReplaceRecursive(base: PhpArray, replacement: PhpArray): (r: PhpArray)
    decreases Arr(replacement)
    ensures r.Keys == base.Keys + replacement.Keys
    ensures forall k :: k in base && k !in replacement ==> r[k] == base[k]
    ensures forall k :: k in replacement && !(k in base && base[k].Arr? && replacement[k].Arr?) ==>
      r[k] == replacement[k]
    ensures forall k :: k in replacement && k in base && base[k].Arr? && replacement[k].Arr? ==>
      r[k].Arr? && r[k].items.Keys == base[k].items.Keys + replacement[k].items.Keys
  {
    map k | k in base.Keys + replacement.Keys ::
      if k !in replacement then base[k]
      else if k in base && base[k].Arr? && replacement[k].Arr? then
        Arr(ReplaceRecursive(base[k].items, replacement[k].items))
      else replacement[k]
  }

  /** The value found by following `path` through nested arrays, if any. */
  function At(a: PhpArray, path: seq<string>): Option<Value>
    decreases |path|
  {
    if path == [] then Some(Arr(a))
    else if path[0] !in a then None
    else if |path| == 1 then Some(a[path[0]])
    else if a[path[0]].Arr? then At(a[path[0]].items, path[1..])
    else None
  }

  /** A provided leaf value always wins: wherever the replacement holds a
      non-array value, the merged configuration holds that same value. */
  lemma {:induction false} ReplacementLeafWins(base: PhpArray, replacement: PhpArray, path: seq<string>)
    requires path != []
    requires At(replacement, path).Some? && !At(replacement, path).value.Arr?
    ensures At(ReplaceRecursive(base, replacement), path) == At(replacement, path)
    decreases |path|
  {
    var k := path[0];
    var r := ReplaceRecursive(base, replacement);
    if |path| > 1 {
      if k in base && base[k].Arr? {
        ReplacementLeafWins(base[k].items, replacement[k].items, path[1..]);
      }
    }
  }

  /** A default the replacement does not override survives at any depth: when
      the replacement lacks the path, and every prefix of it that the
      replacement does hold is an array (so merging descends there instead of
      replacing), the merged configuration keeps the default's value. */
  lemma {:induction false} DefaultSurvives(base: PhpArray, replacement: PhpArray, path: seq<string>)
    requires path != []
    requires At(base, path).Some? && At(replacement, path).None?
    requires forall i :: 0 < i < |path| && At(replacement, path[..i]).Some? ==> At(replacement, path[..i]).value.Arr?
    ensures At(ReplaceRecursive(base, replacement), path) == At(base, path)
    decreases |path|
  {
    var k := path[0];
    if k in replacement {
      assert |path| > 1;
      assert At(replacement, path[..1]) == Some(replacement[k]);
      var p := path[1..];
      forall i | 0 < i < |p| && At(replacement[k].items, p[..i]).Some?
        ensures At(replacement[k].items, p[..i]).value.Arr?
      {
        assert path[..i + 1][1..] == p[..i];
        assert At(replacement, path[..i + 1]) == At(replacement[k].items, p[..i]);
      }
      DefaultSurvives(base[k].items, replacement[k].items, p);
    }
  }

  /** Hyper's case: a default Guzzle option the provided Guzzle options do not
      mention is kept, whatever else they set. */
  lemma NestedDefaultKept(outer: string, inner: string, v: Value, defaults: PhpArray, provided: PhpArray)
    requires inner !in provided
    ensures var merged := ReplaceRecursive(map[outer := Arr(defaults[inner := v])], map[outer := Arr(provided)]);
      At(merged, [outer, inner]) == Some(v)
  {
    var base := map[outer := Arr(defaults[inner := v])];
    var replacement := map[outer := Arr(provided)];
    assert [outer, inner][..1] == [outer];
    DefaultSurvives(base, replacement, [outer, inner]);
  }

  /** Merging a configuration over itself changes nothing. */
  lemma {:induction false} ReplaceWithSelf(a: PhpArray)
    ensures ReplaceRecursive(a, a) == a
    decreases Arr(a)
  {
    var r := ReplaceRecursive(a, a);
    forall k | k in a
      ensures r[k] == a[k]
    {
      if a[k].Arr? {
        ReplaceWithSelf(a[k].items);
      }
    }
  }

  /** Nothing provided leaves the default configuration as it is, and an empty
      default leaves the provided configuration as it is. */
  lemma ReplaceIdentities(a: PhpArray)
    ensures ReplaceRecursive(a, map[]) == a
    ensures ReplaceRecursive(map[], a) == a
  {
  }
}
