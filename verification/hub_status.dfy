/**
 * The status check of HubStatusUpdater.update,
 * pkg/hub/plugins/hubstatus_updater.go: for every hub the pods are listed,
 * the ones that are not running are collected by name with their phase, and
 * the hub's state is updated with that collection when it is not empty.
 */
module HubStatus {
  /** v1.PodRunning */
  const PodRunning: string := "Running"

  datatype Pod = Pod(name: string, namespace: string, phase: string)

  datatype Hub = Hub(name: string, namespace: string)

  /** A call of hubutils.UpdateState: the hub and the pods reported in its error. */
  datatype StateUpdate = StateUpdate(hub: Hub, notRunning: map<string, string>)

  /** hisstorg after visiting pods: every pod that is not running, by name, with its phase. */
  function NotRunning(pods: seq<Pod>): map<string, string>
    decreases |pods|
  {
    if pods == [] then map[]
    else
      var m := NotRunning(pods[..|pods| - 1]);
      var pod := pods[|pods| - 1];
      if pod.phase != PodRunning then m[pod.name := pod.phase] else m
  }

  /** The state updates for hubs, hub i having seen the pods listPods(i). */
  function UpdatesFor(hubs: seq<Hub>, listPods: nat -> seq<Pod>): seq<StateUpdate>
    decreases |hubs|
  {
    if hubs == [] then []
    else
      var i := |hubs| - 1;
      var previous := UpdatesFor(hubs[..i], listPods);
      var hisstorg := NotRunning(listPods(i));
      if |hisstorg| > 0 then previous + [StateUpdate(hubs[i], hisstorg)] else previous
  }

  /**
   * update: the hub list and the i-th pod listing are given (the listings
   * ignore their errors, as the source does); the result is the sequence of
   * UpdateState calls made.
   */
  method Update(hubs: seq<Hub>, listPods: nat -> seq<Pod>) returns (updates: seq<StateUpdate>)
    ensures updates == UpdatesFor(hubs, listPods)
  {
    updates := [];
    for i := 0 to |hubs|
      invariant updates == UpdatesFor(hubs[..i], listPods)
    {
      var podList := listPods(i);
      var hisstorg: map<string, string> := map[];
      for j := 0 to |podList|
        invariant hisstorg == NotRunning(podList[..j])
      {
        var pod := podList[j];
        assert podList[..j + 1][..j] == podList[..j];
        if pod.phase != PodRunning {
          hisstorg := hisstorg[pod.name := pod.phase];
        }
      }
      assert podList[..|podList|] == podList;
      assert hubs[..i + 1][..i] == hubs[..i];
      if |hisstorg| > 0 {
        updates := updates + [StateUpdate(hubs[i], hisstorg)];
      }
    }
    assert hubs[..|hubs|] == hubs;
  }

  // ---------------------------------------------------------------------------
  // Properties

  /** A name is collected exactly when some pod of that name is not running. */
  lemma {:induction false} NotRunningKeys(pods: seq<Pod>, name: string)
    ensures name in NotRunning(pods) <==> exists i :: 0 <= i < |pods| && pods[i].name == name && pods[i].phase != PodRunning
    decreases |pods|
  {
    if pods != [] {
      var init := pods[..|pods| - 1];
      NotRunningKeys(init, name);
      if exists i :: 0 <= i < |init| && init[i].name == name && init[i].phase != PodRunning {
        var i :| 0 <= i < |init| && init[i].name == name && init[i].phase != PodRunning;
        assert pods[i] == init[i];
      }
      if exists i :: 0 <= i < |pods| && pods[i].name == name && pods[i].phase != PodRunning {
        var i :| 0 <= i < |pods| && pods[i].name == name && pods[i].phase != PodRunning;
        if i < |init| {
          assert init[i] == pods[i];
        }
      }
    }
  }

  /** Every collected phase is the phase of a pod of that name, and never Running. */
  lemma {:induction false} NotRunningValues(pods: seq<Pod>)
    ensures forall name <- NotRunning(pods) :: NotRunning(pods)[name] != PodRunning
    ensures forall name <- NotRunning(pods) ::
      exists i :: 0 <= i < |pods| && pods[i].name == name && pods[i].phase == NotRunning(pods)[name]
    decreases |pods|
  {
    if pods != [] {
      var init := pods[..|pods| - 1];
      NotRunningValues(init);
      forall name <- NotRunning(pods)
        ensures exists i :: 0 <= i < |pods| && pods[i].name == name && pods[i].phase == NotRunning(pods)[name]
      {
        var pod := pods[|pods| - 1];
        if pod.phase != PodRunning && name == pod.name {
          assert pods[|pods| - 1].phase == NotRunning(pods)[name];
        } else {
          assert name in NotRunning(init) && NotRunning(pods)[name] == NotRunning(init)[name];
          var i :|0 <= i < |init| && init[i].name == name && init[i].phase == NotRunning(init)[name];
          assert pods[i] == init[i];
        }
      }
    }
  }

  /** When pod names are distinct, each pod that is not running is reported with its own phase. */
  lemma {:induction false} NotRunningPhase(pods: seq<Pod>, k: nat)
    requires k < |pods| && pods[k].phase != PodRunning
    requires forall i, j :: 0 <= i < j < |pods| ==> pods[i].name != pods[j].name
    ensures pods[k].name in NotRunning(pods) && NotRunning(pods)[pods[k].name] == pods[k].phase
    decreases |pods|
  {
    var init := pods[..|pods| - 1];
    if k < |pods| - 1 {
      assert init[k] == pods[k];
      NotRunningPhase(init, k);
    }
  }

  /** A hub gets an update exactly when it saw a pod that is not running, and never for running pods. */
  lemma {:induction false} UpdatesAreForDownHubs(hubs: seq<Hub>, listPods: nat -> seq<Pod>)
    ensures forall u <- UpdatesFor(hubs, listPods) :: |u.notRunning| > 0 && u.hub in hubs
    ensures forall u <- UpdatesFor(hubs, listPods) :: forall name <- u.notRunning :: u.notRunning[name] != PodRunning
    decreases |hubs|
  {
    if hubs != [] {
      var i := |hubs| - 1;
      UpdatesAreForDownHubs(hubs[..i], listPods);
      NotRunningValues(listPods(i));
      assert forall h <- hubs[..i] :: h in hubs;
    }
  }

  /** When every pod is running, no hub is updated. */
  lemma {:induction false} AllRunningNoUpdates(hubs: seq<Hub>, listPods: nat -> seq<Pod>)
    requires forall i: nat, p <- listPods(i) :: p.phase == PodRunning
    ensures UpdatesFor(hubs, listPods) == []
    decreases |hubs|
  {
    if hubs != [] {
      var i := |hubs| - 1;
      AllRunningNoUpdates(hubs[..i], listPods);
      forall name
        ensures name !in NotRunning(listPods(i))
      {
        NotRunningKeys(listPods(i), name);
        assert forall k :: 0 <= k < |listPods(i)| ==> listPods(i)[k] in listPods(i);
      }
      assert NotRunning(listPods(i)) == map[];
    }
  }

  /**
   * Each hub's collection starts empty: hub i's update depends on its own
   * listing only, so the listing of another hub cannot change it.
   */
  lemma {:induction false} NoCarryOver(hubs: seq<Hub>, listPods: nat -> seq<Pod>, other: nat -> seq<Pod>)
    requires forall i :: 0 <= i < |hubs| ==> NotRunning(listPods(i)) == NotRunning(other(i))
    ensures UpdatesFor(hubs, listPods) == UpdatesFor(hubs, other)
    decreases |hubs|
  {
    if hubs != [] {
      NoCarryOver(hubs[..|hubs| - 1], listPods, other);
    }
  }

  /** Hub i saw a pod that is not running. */
  predicate Down(listPods: nat -> seq<Pod>, i: nat) {
    |NotRunning(listPods(i))| > 0
  }

  /** The indexes below n of the hubs that saw a pod not running. */
  function DownHubs(n: nat, listPods: nat -> seq<Pod>): set<nat> {
    set i: nat | i < n && Down(listPods, i)
  }

  lemma DownHubsNext(n: nat, listPods: nat -> seq<Pod>)
    ensures |DownHubs(n + 1, listPods)| == |DownHubs(n, listPods)| + (if Down(listPods, n) then 1 else 0)
  {
    if Down(listPods, n) {
      assert DownHubs(n + 1, listPods) == DownHubs(n, listPods) + {n};
    } else {
      assert DownHubs(n + 1, listPods) == DownHubs(n, listPods);
    }
  }

  lemma UpdatesForLength(hubs: seq<Hub>, listPods: nat -> seq<Pod>)
    requires |hubs| > 0
    ensures var n := |hubs| - 1;
      |UpdatesFor(hubs, listPods)| == |UpdatesFor(hubs[..n], listPods)| + (if Down(listPods, n) then 1 else 0)
  {
  }

  /** The number of updates is the number of hubs that saw a pod not running. */
  lemma {:induction false} UpdateCount(hubs: seq<Hub>, listPods: nat -> seq<Pod>)
    ensures |UpdatesFor(hubs, listPods)| == |DownHubs(|hubs|, listPods)|
    decreases |hubs|
  {
    if hubs != [] {
      var n := |hubs| - 1;
      UpdateCount(hubs[..n], listPods);
      UpdatesForLength(hubs, listPods);
      DownHubsNext(n, listPods);
    }
  }

  /**
   * The pods are listed in every namespace, once per hub: with an unchanged
   * cluster every hub sees the same pods, so one pod that is not running,
   * wherever it is, is reported against every hub.
   */
  lemma {:induction false} OnePodDownReportsEveryHub(hubs: seq<Hub>, pods: seq<Pod>)
    requires exists i :: 0 <= i < |pods| && pods[i].phase != PodRunning
    ensures |UpdatesFor(hubs, (_: nat) => pods)| == |hubs|
    decreases |hubs|
  {
    var i :| 0 <= i < |pods| && pods[i].phase != PodRunning;
    NotRunningKeys(pods, pods[i].name);
    if hubs != [] {
      OnePodDownReportsEveryHub(hubs[..|hubs| - 1], pods);
    }
  }
}
