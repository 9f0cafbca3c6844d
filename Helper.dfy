/** String and collection helpers shared by the services
    (src/commons/utils/helper.ts). */
module Helper {
  import opened Common

  /** Shortens a display name to at most `maxLength` characters, marking the
      cut with "...". The JavaScript `substring(0, n)` clamps a negative `n`
      to 0, so for `maxLength < 3` the body is empty. */
  function TruncateName(name: string, maxLength: int): (r: string)
    ensures name == [] ==> r == []
    ensures name != [] && |name| <= maxLength ==> r == name
    ensures |name| > maxLength >= 3 ==>
              |r| == maxLength
              && r[..maxLength - 3] == name[..maxLength - 3]
              && r[maxLength - 3..] == "..."
    ensures name != [] && |name| > maxLength && maxLength < 3 ==> r == "..."
  {
    if name == [] then []
    else if |name| <= maxLength then name
    else
      var keep := if maxLength - 3 < 0 then 0 else maxLength - 3;
      name[..keep] + "..."
  }

  /** The default length the services truncate display names to. */
  const DefaultNameLength: int := 10

  ghost predicate NoDuplicates<T>(s: seq<T>)
  {
    forall i, j :: 0 <= i < j < |s| ==> s[i] != s[j]
  }

  /** Index of the first occurrence of `x` in `s`. */
  function FirstIndex<T(==)>(s: seq<T>, x: T): (i: nat)
    requires x in s
    ensures i < |s| && s[i] == x && x !in s[..i]
  {
    if s[0] == x then 0 else 1 + FirstIndex(s[1..], x)
  }

  lemma {:induction false} FirstIndexOfPrefix<T>(s: seq<T>, n: nat, x: T)
    requires n <= |s| && x in s[..n]
    ensures FirstIndex(s[..n], x) == FirstIndex(s, x)
  {
    if s[0] != x {
      assert s[..n][1..] == s[1..][..n - 1];
      FirstIndexOfPrefix(s[1..], n - 1, x);
    }
  }

  /** `Array.from(new Set(arr))`: every element once, in the order of its
      first occurrence. */
  function Uniq<T(==,!new)>(s: seq<T>): (r: seq<T>)
    ensures forall x :: x in r <==> x in s
    ensures NoDuplicates(r)
    ensures forall i, j :: 0 <= i < j < |r| ==> FirstIndex(s, r[i]) < FirstIndex(s, r[j])
  {
    if s == [] then []
    else
      var init := s[..|s| - 1];
      var last := s[|s| - 1];
      var prev := Uniq(init);
      assert s == init + [last];
      assert forall k :: 0 <= k < |prev| ==> FirstIndex(init, prev[k]) == FirstIndex(s, prev[k]) by {
        forall k | 0 <= k < |prev| ensures FirstIndex(init, prev[k]) == FirstIndex(s, prev[k]) {
          FirstIndexOfPrefix(s, |s| - 1, prev[k]);
        }
      }
      if last in prev then prev
      else
        assert last !in init;
        assert FirstIndex(s, last) == |s| - 1;
        prev + [last]
  }

  /** The value a JavaScript object yields for a key: present or `undefined`. */
  function Lookup<K, V>(obj: map<K, V>, k: K): Option<V>
  {
    if k in obj then Some(obj[k]) else None
  }

  /** `pick(obj, keys)`: a fresh object holding exactly the given keys, each
      with the source object's value (`None` for `undefined`). */
  function Pick<K, V>(obj: map<K, V>, keys: seq<K>): (r: map<K, Option<V>>)
    ensures r.Keys == set k | k in keys
    ensures forall k :: k in r ==> r[k] == Lookup(obj, k)
  {
    if keys == [] then map[]
    else
      var last := keys[|keys| - 1];
      var init := keys[..|keys| - 1];
      var prev := Pick(obj, init);
      assert (set k | k in keys) == (set k | k in init) + {last} by {
        assert keys == init + [last];
      }
      prev[last := Lookup(obj, last)]
  }

  /** A numeric input that may be `NaN`. */
  datatype Number = NaN | Num(v: real)

  /** The unit `formatVolume` appends; `Zero` is the literal "0" it returns
      for 0 and NaN. The digits themselves are not modelled. */
  datatype VolumeUnit = Zero | Millions | Thousands | Units

  function Abs(x: real): (r: real)
    ensures r >= 0.0 && (r == x || r == -x)
  {
    if x < 0.0 then -x else x
  }

  /** The unit `formatVolume` chooses for a volume. */
  function FormatVolumeUnit(volume: Number): (u: VolumeUnit)
    ensures u == Zero <==> volume == NaN || volume == Num(0.0)
    ensures u == Millions <==> volume.Num? && Abs(volume.v) >= 1000000.0
    ensures u == Thousands <==> volume.Num? && 1000.0 <= Abs(volume.v) < 1000000.0
    ensures u == Units <==> volume.Num? && 0.0 < Abs(volume.v) < 1000.0
  {
    match volume
    case NaN => Zero
    case Num(v) =>
      if v == 0.0 then Zero
      else if Abs(v) >= 1000000.0 then Millions
      else if Abs(v) >= 1000.0 then Thousands
      else Units
  }

  /** The output never depends on the sign of the volume. */
  lemma FormatVolumeIgnoresSign(v: real)
    ensures FormatVolumeUnit(Num(v)) == FormatVolumeUnit(Num(-v))
  {
  }
}
