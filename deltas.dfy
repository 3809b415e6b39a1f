/** Delta computation (model-changes.js:210-224) and the per-row correlation of
    a bulk update with its pre-state (model-changes.js:109-121). */
module Deltas {
  import opened JsValues

  /** `_.pick(m, ks)`: the entries of `m` whose key is in `ks`. */
  function Pick(m: Record, ks: set<string>): Record
  {
    map k | k in ks && k in m :: m[k]
  }

  /** The delta of two present snapshots: the keys of `upd` whose value
      differs from `prior`'s, plus the id key, each with `upd`'s value. */
  function Changed(idKey: string, prior: Record, upd: Record): (r: Record)
    ensures r.Keys <= upd.Keys
    ensures forall k :: k in r ==> r[k] == upd[k]
    ensures forall k :: k in upd ==> (k in r <==> k == idKey || Get(prior, k) != upd[k])
  {
    var deltaKeys := set k | k in upd && Get(prior, k) != upd[k];
    Pick(upd, deltaKeys + {idKey})
  }

  /** `extractDeltas(prior, upd)`: the whole update when there is no prior
      snapshot, the empty object when there is no update. */
  function ExtractDeltas(idKey: string, prior: Option<Record>, upd: Option<Record>): Option<Record>
  {
    if prior.None? then upd
    else if upd.None? then Some(map[])
    else Some(Changed(idKey, prior.value, upd.value))
  }

  /** The three cases of `extractDeltas`, stated on its result. */
  lemma ExtractDeltasCases(idKey: string, prior: Option<Record>, upd: Option<Record>)
    ensures prior.None? ==> ExtractDeltas(idKey, prior, upd) == upd
    ensures prior.Some? && upd.None? ==> ExtractDeltas(idKey, prior, upd) == Some(map[])
    ensures prior.Some? && upd.Some? ==>
      && ExtractDeltas(idKey, prior, upd).Some?
      && (forall k :: k in ExtractDeltas(idKey, prior, upd).value <==>
            k in upd.value && (k == idKey || Get(prior.value, k) != upd.value[k]))
  {
  }

  /** What a non-id property reads as in the delta: `upd`'s value when it
      changed, `undefined` when it did not. */
  lemma ChangedValueAt(idKey: string, prior: Record, upd: Record, p: string)
    requires p != idKey
    ensures Get(Changed(idKey, prior, upd), p) == if Get(prior, p) == Get(upd, p) then Undefined else Get(upd, p)
  {
  }

  /** Patching the prior snapshot with the delta recovers every property of
      the update: nothing that changed is lost. */
  lemma ChangedPatchesOld(idKey: string, prior: Record, upd: Record)
    ensures forall k :: k in upd ==> Get(prior + Changed(idKey, prior, upd), k) == upd[k]
  {
  }

  /** Diffing a delta against the same prior snapshot again changes nothing. */
  lemma ChangedIdempotent(idKey: string, prior: Record, upd: Record)
    ensures Changed(idKey, prior, Changed(idKey, prior, upd)) == Changed(idKey, prior, upd)
  {
    var d := Changed(idKey, prior, upd);
    var dd := Changed(idKey, prior, d);
    assert dd.Keys == d.Keys;
  }

  /** An update that changes no property leaves only the id. */
  lemma UnchangedLeavesOnlyId(idKey: string, prior: Record, upd: Record)
    requires forall k :: k in upd ==> Get(prior, k) == upd[k]
    ensures Changed(idKey, prior, upd) == Pick(upd, {idKey})
  {
  }

  /** The `originals` map: each previous row under its id, a later row
      overwriting an earlier one with the same id (model-changes.js:110-113). */
  function Originals(idKey: string, prev: seq<Record>): map<Value, Record>
  {
    if prev == [] then map[]
    else Originals(idKey, prev[..|prev| - 1])[Get(prev[|prev| - 1], idKey) := prev[|prev| - 1]]
  }

  /** The ids in `originals` are exactly the ids of the previous rows. */
  lemma {:induction false} OriginalsKeys(idKey: string, prev: seq<Record>, v: Value)
    ensures v in Originals(idKey, prev) <==> exists j :: 0 <= j < |prev| && Get(prev[j], idKey) == v
  {
    if prev != [] {
      var init := prev[..|prev| - 1];
      OriginalsKeys(idKey, init, v);
      if exists j :: 0 <= j < |init| && Get(init[j], idKey) == v {
        var j :| 0 <= j < |init| && Get(init[j], idKey) == v;
        assert prev[j] == init[j];
      }
      if exists j :: 0 <= j < |prev| && Get(prev[j], idKey) == v {
        var j :| 0 <= j < |prev| && Get(prev[j], idKey) == v;
        if j < |init| {
          assert init[j] == prev[j];
        }
      }
    }
  }

  /** `originals` maps an id to the LAST previous row carrying it. */
  lemma {:induction false} OriginalsLast(idKey: string, prev: seq<Record>, j: nat)
    requires j < |prev|
    requires forall k :: j < k < |prev| ==> Get(prev[k], idKey) != Get(prev[j], idKey)
    ensures Get(prev[j], idKey) in Originals(idKey, prev)
    ensures Originals(idKey, prev)[Get(prev[j], idKey)] == prev[j]
  {
    if j < |prev| - 1 {
      var init := prev[..|prev| - 1];
      assert init[j] == prev[j];
      forall k | j < k < |init| ensures Get(init[k], idKey) != Get(init[j], idKey) {
        assert init[k] == prev[k];
      }
      OriginalsLast(idKey, init, j);
    }
  }

  /** One row of a bulk update as recorded in delta mode: diffed against the
      original with the same id, or kept whole when there is none. */
  function Diffed(idKey: string, originals: map<Value, Record>, inst: Record): Record
  {
    var id := Get(inst, idKey);
    if id in originals then Changed(idKey, originals[id], inst) else inst
  }

  /** The rows of a bulk update after per-row diffing. */
  function Correlated(idKey: string, prev: seq<Record>, instances: seq<Record>): (rows: seq<Record>)
    ensures |rows| == |instances|
  {
    var originals := Originals(idKey, prev);
    seq(|instances|, i requires 0 <= i < |instances| => Diffed(idKey, originals, instances[i]))
  }

  /** Each updated row is diffed against its own original: the last previous
      row with the same id. */
  lemma CorrelatedMatched(idKey: string, prev: seq<Record>, instances: seq<Record>, i: nat, j: nat)
    requires i < |instances| && j < |prev|
    requires Get(prev[j], idKey) == Get(instances[i], idKey)
    requires forall k :: j < k < |prev| ==> Get(prev[k], idKey) != Get(prev[j], idKey)
    ensures Correlated(idKey, prev, instances)[i] == Changed(idKey, prev[j], instances[i])
  {
    OriginalsLast(idKey, prev, j);
  }

  /** A row with no original of the same id is recorded whole. */
  lemma CorrelatedUnmatched(idKey: string, prev: seq<Record>, instances: seq<Record>, i: nat)
    requires i < |instances|
    requires forall j :: 0 <= j < |prev| ==> Get(prev[j], idKey) != Get(instances[i], idKey)
    ensures Correlated(idKey, prev, instances)[i] == instances[i]
  {
    OriginalsKeys(idKey, prev, Get(instances[i], idKey));
  }

  /** The delta-mode branch of the bulk update: builds `originals` with one
      loop, then maps every updated row through it with another. */
  method CorrelateDeltas(idKey: string, previousValues: seq<Record>, instances: seq<Record>)
    returns (rows: seq<Record>)
    ensures rows == Correlated(idKey, previousValues, instances)
  {
    var originals: map<Value, Record> := map[];
    for i := 0 to |previousValues|
      invariant originals == Originals(idKey, previousValues[..i])
    {
      var item := previousValues[i];
      assert previousValues[..i + 1][..i] == previousValues[..i];
      originals := originals[Get(item, idKey) := item];
    }
    assert previousValues[..|previousValues|] == previousValues;
    rows := [];
    for j := 0 to |instances|
      invariant |rows| == j
      invariant forall k :: 0 <= k < j ==> rows[k] == Diffed(idKey, originals, instances[k])
    {
      var inst := instances[j];
      var id := Get(inst, idKey);
      if id in originals {
        rows := rows + [Changed(idKey, originals[id], inst)];
      } else {
        rows := rows + [inst];
      }
    }
  }
}
