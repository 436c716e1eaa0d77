// PID allocation of base/ps/ps.c: the least positive number that no process has.

module Pids {

  // The process IDs from k on that are in use.
  ghost function UsedFrom(pids: seq<nat>, k: nat): set<nat> {
    set x | x in pids && x >= k
  }

  lemma {:induction false} FewerFrom(pids: seq<nat>, k: nat)
    requires k in pids
    ensures UsedFrom(pids, k) == UsedFrom(pids, k + 1) + {k}
    ensures |UsedFrom(pids, k + 1)| < |UsedFrom(pids, k)|
  {
  }

  // The least number from k on that is not in use.
  function LeastUnused(pids: seq<nat>, k: nat): (r: nat)
    ensures r >= k && r !in pids
    ensures forall x :: k <= x < r ==> x in pids
    decreases |UsedFrom(pids, k)|
  {
    if k in pids then
      FewerFrom(pids, k);
      LeastUnused(pids, k + 1)
    else k
  }

  // Pigeonholes: it is at most one more than the number of IDs in use from k on.
  lemma {:induction false} LeastUnusedBound(pids: seq<nat>, k: nat)
    ensures LeastUnused(pids, k) <= k + |UsedFrom(pids, k)|
    decreases |UsedFrom(pids, k)|
  {
    if k in pids {
      FewerFrom(pids, k);
      LeastUnusedBound(pids, k + 1);
    }
  }

  lemma {:induction false} UsedFromSize(pids: seq<nat>, k: nat)
    ensures |UsedFrom(pids, k)| <= |pids|
  {
    if pids == [] {
      assert UsedFrom(pids, k) == {};
    } else {
      UsedFromSize(pids[1..], k);
      assert pids == [pids[0]] + pids[1..];
      if pids[0] >= k {
        assert UsedFrom(pids, k) == UsedFrom(pids[1..], k) + {pids[0]};
      } else {
        assert UsedFrom(pids, k) == UsedFrom(pids[1..], k);
      }
    }
  }

  // PIDInUse: a walk along the PIDs of the process objects.
  method PIDInUse(pids: seq<nat>, pid: nat) returns (used: bool)
    ensures used <==> pid in pids
  {
    var i := 0;
    while i < |pids|
      invariant i <= |pids| && pid !in pids[..i]
    {
      if pids[i] == pid {
        return true;
      }
      i := i + 1;
    }
    return false;
  }

  // GetNewPID, with PID 0 for the idle process and the process being created: it
  // terminates, and gives the least positive PID not in use.
  method GetNewPID(pids: seq<nat>) returns (pid: nat)
    ensures pid == LeastUnused(pids, 1)
    ensures pid >= 1 && pid !in pids && forall x :: 1 <= x < pid ==> x in pids
    ensures pid <= 1 + |UsedFrom(pids, 1)| <= 1 + |pids|
  {
    pid := 1;
    var used := PIDInUse(pids, pid);
    while used
      invariant used <==> pid in pids
      invariant pid >= 1 && LeastUnused(pids, pid) == LeastUnused(pids, 1)
      decreases |UsedFrom(pids, pid)|, used
    {
      FewerFrom(pids, pid);
      pid := pid + 1;
      used := PIDInUse(pids, pid);
    }
    LeastUnusedBound(pids, 1);
    UsedFromSize(pids, 1);
  }
}
