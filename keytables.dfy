/** The host framework's key constants and the two look-up disciplines the
    plugin uses over (value, key name) tables: a JavaScript `Map` built from a
    list of entries, where a repeated key keeps the value of its LAST entry,
    and a `switch` statement, where the FIRST matching `case` is taken. */
module KeyTables {
  import opened Wrappers

  /** The numeric values of HomeKit's `RemoteKey` and `VolumeSelector`
      characteristic constants, as the host framework supplies them. The
      model keeps them as parameters so that no table below silently assumes
      that they are distinct. */
  datatype KeyCodes = KeyCodes(
    rewind: int, fastForward: int, nextTrack: int, previousTrack: int,
    arrowUp: int, arrowDown: int, arrowLeft: int, arrowRight: int,
    select: int, back: int, exit: int, playPause: int, information: int,
    increment: int, decrement: int)

  /** The values HomeKit's accessory protocol assigns to these constants:
      RemoteKey REWIND = 0 ... EXIT = 10, PLAY_PAUSE = 11, INFORMATION = 15,
      and VolumeSelector INCREMENT = 0, DECREMENT = 1. */
  const Hap: KeyCodes := KeyCodes(0, 1, 2, 3, 4, 5, 6, 7, 8, 9, 10, 11, 15, 0, 1)

  /** The thirteen RemoteKey constants, in the order the plugin lists them. */
  function RemoteKeyCodes(c: KeyCodes): (s: seq<int>)
    ensures |s| == 13
  {
    [c.rewind, c.fastForward, c.nextTrack, c.previousTrack,
     c.arrowUp, c.arrowDown, c.arrowLeft, c.arrowRight,
     c.select, c.back, c.exit, c.playPause, c.information]
  }

  /** Pairs each code with the name at the same position. */
  function Zip(codes: seq<int>, names: seq<string>): (t: seq<(int, string)>)
    requires |codes| == |names|
    ensures |t| == |codes|
    ensures forall i :: 0 <= i < |t| ==> t[i] == (codes[i], names[i])
  {
    seq(|codes|, i requires 0 <= i < |codes| => (codes[i], names[i]))
  }

  predicate Distinct(s: seq<int>)
  {
    forall i, j :: 0 <= i < j < |s| ==> s[i] != s[j]
  }

  /** HomeKit's thirteen RemoteKey values are pairwise distinct, and so are
      its two VolumeSelector values. */
  lemma HapCodesDistinct()
    ensures Distinct(RemoteKeyCodes(Hap)) && Hap.increment != Hap.decrement
  {
  }

  /** Entry i is the last entry of `pairs` whose key is k. */
  ghost predicate IsLastEntry(pairs: seq<(int, string)>, k: int, i: int)
  {
    0 <= i < |pairs| && pairs[i].0 == k &&
    forall j :: i < j < |pairs| ==> pairs[j].0 != k
  }

  /** Entry i is the first entry of `cases` whose key is k. */
  ghost predicate IsFirstEntry(cases: seq<(int, string)>, k: int, i: int)
  {
    0 <= i < |cases| && cases[i].0 == k &&
    forall j :: 0 <= j < i ==> cases[j].0 != k
  }

  /** `new Map(pairs)`: the entries are inserted in order, so a key that
      occurs twice ends up bound to the name of its last entry. */
  function BuildMap(pairs: seq<(int, string)>): (m: map<int, string>)
    ensures forall k :: k in m <==> exists i :: 0 <= i < |pairs| && pairs[i].0 == k
    ensures forall k :: k in m ==> exists i :: IsLastEntry(pairs, k, i) && m[k] == pairs[i].1
    decreases |pairs|
  {
    if pairs == [] then map[]
    else
      var init := pairs[..|pairs| - 1];
      var last := pairs[|pairs| - 1];
      var m0 := BuildMap(init);
      assert forall k, i :: k != last.0 && IsLastEntry(init, k, i) ==> IsLastEntry(pairs, k, i);
      assert IsLastEntry(pairs, last.0, |pairs| - 1);
      m0[last.0 := last.1]
  }

  /** `map.has(v) ? map.get(v) : nothing`. */
  function MapGet(m: map<int, string>, v: int): (r: Option<string>)
    ensures r.Some? <==> v in m
    ensures r.Some? ==> r.value == m[v]
  {
    if v in m then Some(m[v]) else None
  }

  /** The last entry for a key decides what the built map holds for it. */
  lemma LastEntryDecides(pairs: seq<(int, string)>, i: int)
    requires 0 <= i < |pairs| && IsLastEntry(pairs, pairs[i].0, i)
    ensures MapGet(BuildMap(pairs), pairs[i].0) == Some(pairs[i].1)
  {
    var m, k := BuildMap(pairs), pairs[i].0;
    assert k in m;
    var i' :| IsLastEntry(pairs, k, i') && m[k] == pairs[i'].1;
    assert i' == i;
  }

  /** A `switch (v)` over the cases in order; `None` when no case matches
      (the statement falls through without doing anything). */
  function FirstMatch(cases: seq<(int, string)>, v: int): (r: Option<string>)
    ensures r.None? <==> forall i :: 0 <= i < |cases| ==> cases[i].0 != v
    ensures r.Some? ==> exists i :: IsFirstEntry(cases, v, i) && r.value == cases[i].1
  {
    if cases == [] then None
    else if cases[0].0 == v then
      assert IsFirstEntry(cases, v, 0);
      Some(cases[0].1)
    else
      var r := FirstMatch(cases[1..], v);
      assert r.Some? ==> exists i :: IsFirstEntry(cases[1..], v, i) && r.value == cases[1..][i].1;
      assert forall i :: IsFirstEntry(cases[1..], v, i) ==> IsFirstEntry(cases, v, i + 1);
      r
  }

  /** The first case for a value decides which branch the switch takes. */
  lemma FirstEntryDecides(cases: seq<(int, string)>, i: int)
    requires 0 <= i < |cases| && IsFirstEntry(cases, cases[i].0, i)
    ensures FirstMatch(cases, cases[i].0) == Some(cases[i].1)
  {
    var r, k := FirstMatch(cases, cases[i].0), cases[i].0;
    var i' :| IsFirstEntry(cases, k, i') && r.value == cases[i'].1;
    assert i' == i;
  }
}
