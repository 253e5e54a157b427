/**
 * The get-or-create step that both `SingletonMeta.__call__` variants perform
 * on their `_instances` dictionary, stated on values: look the class up, and
 * only when it is absent record the freshly constructed instance under it.
 */
module Registry {

  /**
   * One call for class `k` on the registry `m`, where `made` is the instance
   * the constructor would produce. Returns the new registry and the instance
   * handed back to the caller.
   */
  function GetOrCreate<K, V>(m: map<K, V>, k: K, made: V): (r: (map<K, V>, V))
    ensures k in r.0 && r.1 == r.0[k]
    ensures r.0.Keys == m.Keys + {k}
    ensures forall j :: j in m ==> r.0[j] == m[j]
    ensures k in m ==> r.0 == m
    ensures k !in m ==> r.1 == made
  {
    if k in m then (m, m[k]) else (m[k := made], made)
  }

  /**
   * After one call for `k`, a second call for `k` changes nothing and hands
   * back the first call's instance, whatever the second constructor would
   * have made.
   */
  lemma SecondCallIgnored<K, V>(m: map<K, V>, k: K, made: V, later: V)
    ensures GetOrCreate(GetOrCreate(m, k, made).0, k, later) == GetOrCreate(m, k, made)
  {
  }

  /** The classes named by a sequence of calls. */
  function CalledKeys<K, V>(calls: seq<(K, V)>): set<K>
  {
    set i | 0 <= i < |calls| :: calls[i].0
  }

  /**
   * A sequence of calls, each a class and the instance its constructor would
   * make, run one after another from registry `m`. Returns the final registry
   * and what each call handed back.
   */
  function Replay<K, V>(m: map<K, V>, calls: seq<(K, V)>): (r: (map<K, V>, seq<V>))
    ensures |r.1| == |calls|
    ensures r.0.Keys == m.Keys + CalledKeys(calls)
    ensures forall j :: j in m ==> r.0[j] == m[j]
  {
    if calls == [] then (m, [])
    else
      var n := |calls| - 1;
      var before := Replay(m, calls[..n]);
      var after := GetOrCreate(before.0, calls[n].0, calls[n].1);
      assert CalledKeys(calls) == CalledKeys(calls[..n]) + {calls[n].0} by {
        assert forall i :: 0 <= i < n ==> calls[..n][i] == calls[i];
      }
      (after.0, before.1 + [after.1])
  }

  /** Every call hands back the instance the final registry holds for its class. */
  lemma {:induction false} ReplayHandsBackRecorded<K, V>(m: map<K, V>, calls: seq<(K, V)>, i: nat)
    requires i < |calls|
    ensures Replay(m, calls).1[i] == Replay(m, calls).0[calls[i].0]
  {
    var n := |calls| - 1;
    var before := Replay(m, calls[..n]);
    if i < n {
      ReplayHandsBackRecorded(m, calls[..n], i);
      assert calls[..n][i] == calls[i];
      assert Replay(m, calls).1[i] == before.1[i];
    }
  }

  /** Two calls for the same class hand back the same instance. */
  lemma SameClassSameInstance<K, V>(m: map<K, V>, calls: seq<(K, V)>, i: nat, j: nat)
    requires i < |calls| && j < |calls| && calls[i].0 == calls[j].0
    ensures Replay(m, calls).1[i] == Replay(m, calls).1[j]
  {
    ReplayHandsBackRecorded(m, calls, i);
    ReplayHandsBackRecorded(m, calls, j);
  }

  /** The last call of a sequence hands back what `GetOrCreate` gives on the registry the earlier calls left. */
  lemma ReplayLast<K, V>(m: map<K, V>, calls: seq<(K, V)>)
    requires calls != []
    ensures var n := |calls| - 1;
            var before := Replay(m, calls[..n]);
            Replay(m, calls).1 == before.1 + [GetOrCreate(before.0, calls[n].0, calls[n].1).1]
  {
  }

  /** A later call does not change what an earlier call handed back. */
  lemma ReplayEarlier<K, V>(m: map<K, V>, calls: seq<(K, V)>, j: nat)
    requires j < |calls| - 1
    ensures Replay(m, calls).1[j] == Replay(m, calls[..|calls| - 1]).1[j]
  {
    ReplayLast(m, calls);
  }

  /** The last call for a class some earlier call named hands back what that earlier call did. */
  lemma ReplayRepeated<K, V>(m: map<K, V>, calls: seq<(K, V)>, i: nat)
    requires i < |calls| - 1 && calls[i].0 == calls[|calls| - 1].0
    ensures Replay(m, calls).1[|calls| - 1] == Replay(m, calls[..|calls| - 1]).1[i]
  {
    var n := |calls| - 1;
    ReplayLast(m, calls);
    ReplayHandsBackRecorded(m, calls[..n], i);
    assert calls[..n][i] == calls[i];
  }

  /** A call for a class that is neither registered nor called before it hands back its own instance. */
  lemma ReplayFresh<K, V>(m: map<K, V>, calls: seq<(K, V)>)
    requires calls != []
    requires calls[|calls| - 1].0 !in m
    requires forall h :: 0 <= h < |calls| - 1 ==> calls[h].0 != calls[|calls| - 1].0
    ensures Replay(m, calls).1[|calls| - 1] == calls[|calls| - 1].1
  {
    var n := |calls| - 1;
    ReplayLast(m, calls);
    assert calls[n].0 !in CalledKeys(calls[..n]);
  }

  /**
   * For a class not yet registered, every call hands back the instance made
   * by the first call for that class: later constructor arguments are
   * ignored.
   */
  lemma {:induction false} FirstCallWins<K, V>(m: map<K, V>, calls: seq<(K, V)>, i: nat, j: nat)
    requires i <= j < |calls| && calls[i].0 !in m && calls[j].0 == calls[i].0
    requires forall h :: 0 <= h < i ==> calls[h].0 != calls[i].0
    ensures Replay(m, calls).1[j] == calls[i].1
  {
    var n := |calls| - 1;
    var prefix := calls[..n];
    if j < n {
      assert prefix[i] == calls[i] && prefix[j] == calls[j];
      FirstCallWins(m, prefix, i, j);
      ReplayEarlier(m, calls, j);
    } else if i < n {
      assert prefix[i] == calls[i];
      FirstCallWins(m, prefix, i, i);
      ReplayRepeated(m, calls, i);
    } else {
      ReplayFresh(m, calls);
    }
  }
}
