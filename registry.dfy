/**
 * The main loop's two indexes, name -> window id and window id -> name,
 * seen through the window ids alone. The loop keeps them mutual inverses
 * so long as every window it registers comes with a fresh name and a
 * fresh id.
 */
module Registry {

  /** Each table is the other read backwards. */
  ghost predicate Inverse<N, I>(byName: map<N, I>, byId: map<I, N>) {
    && (forall n :: n in byName ==> byName[n] in byId && byId[byName[n]] == n)
    && (forall i :: i in byId ==> byId[i] in byName && byName[byId[i]] == i)
  }

  /** addWindow with a fresh name and a fresh id keeps the tables inverse. */
  lemma AddFreshKeepsInverse<N, I>(byName: map<N, I>, byId: map<I, N>, name: N, id: I)
    requires Inverse(byName, byId)
    requires name !in byName && id !in byId
    ensures Inverse(byName[name := id], byId[id := name])
  {
  }

  /**
   * addWindow overwrites blindly: registering a second name for an id that
   * is already indexed leaves the first name pointing at an id that now
   * names someone else.
   */
  lemma AddStaleIdBreaksInverse<N, I>(byName: map<N, I>, byId: map<I, N>, name: N, id: I)
    requires Inverse(byName, byId)
    requires id in byId && name != byId[id]
    ensures !Inverse(byName[name := id], byId[id := name])
  {
    var first := byId[id];
    assert first in byName && byName[first] == id;
    assert byName[name := id][first] == id && byId[id := name][id] == name;
  }

  /**
   * The same with the name stale: registering a known name under a new id
   * leaves the name's old id pointing at it, while the name now points
   * elsewhere.
   */
  lemma AddStaleNameBreaksInverse<N, I>(byName: map<N, I>, byId: map<I, N>, name: N, id: I)
    requires Inverse(byName, byId)
    requires name in byName && id != byName[name]
    ensures !Inverse(byName[name := id], byId[id := name])
  {
    var previous := byName[name];
    assert previous in byId && byId[previous] == name;
    assert byId[id := name][previous] == name && byName[name := id][name] == id;
  }

  /** Removing an id and the name it indexes keeps the tables inverse. */
  lemma RemoveKeepsInverse<N, I>(byName: map<N, I>, byId: map<I, N>, id: I)
    requires Inverse(byName, byId) && id in byId
    ensures Inverse(byName - {byId[id]}, byId - {id})
  {
  }

  /** Inverse tables hold the same number of entries, so either one counts the windows. */
  lemma {:induction false} InverseSameSize<N, I>(byName: map<N, I>, byId: map<I, N>)
    requires Inverse(byName, byId)
    ensures |byName| == |byId|
    decreases |byName|
  {
    if |byName| != 0 {
      var n :| n in byName;
      var i := byName[n];
      RemoveKeepsInverse(byName, byId, i);
      InverseSameSize(byName - {n}, byId - {i});
      assert |byName - {n}| == |byName| - 1;
      assert |byId - {i}| == |byId| - 1;
    }
  }
}
