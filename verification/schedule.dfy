/** The tick rule every polling loop follows: once per iteration, with the time
    read at the top of the iteration, each periodic activity runs when
    `now - last >= interval`, in the loop's fixed order, and its `last` becomes
    `now`. All `last` values start at 0. */
module Schedule {

  predicate Due(now: int, last: int, interval: int)
  {
    now - last >= interval
  }

  /** The outcome of one iteration: which activities run (in the loop's order)
      and the last-run times afterwards. */
  datatype Plan = Plan(runs: seq<bool>, lasts: seq<int>)

  function PlanTick(now: int, lasts: seq<int>, intervals: seq<int>): (p: Plan)
    requires |lasts| == |intervals|
    ensures |p.runs| == |lasts| && |p.lasts| == |lasts|
    ensures forall i :: 0 <= i < |lasts| ==> (p.runs[i] <==> Due(now, lasts[i], intervals[i]))
    ensures forall i :: 0 <= i < |lasts| && p.runs[i] ==> p.lasts[i] == now
    ensures forall i :: 0 <= i < |lasts| && !p.runs[i] ==> p.lasts[i] == lasts[i]
    decreases |lasts|
  {
    if |lasts| == 0 then Plan([], [])
    else
      var rest := PlanTick(now, lasts[1..], intervals[1..]);
      var due := Due(now, lasts[0], intervals[0]);
      Plan([due] + rest.runs, [if due then now else lasts[0]] + rest.lasts)
  }

  /** The initial last-run times: all zero. */
  function Zeros(n: nat): (r: seq<int>)
    ensures |r| == n && forall i :: 0 <= i < n ==> r[i] == 0
  {
    seq(n, _ => 0)
  }

  /** On the first iteration, at any time no earlier than the longest interval,
      every activity runs. */
  lemma FirstTickRunsEverything(now: int, intervals: seq<int>)
    requires forall i :: 0 <= i < |intervals| ==> intervals[i] <= now
    ensures forall i :: 0 <= i < |intervals| ==> PlanTick(now, Zeros(|intervals|), intervals).runs[i]
  {
  }

  /** An activity that ran at `now` runs next at the first tick at or after
      `now + interval`, and only then (given its last-run time was `now`). */
  lemma NextRunAfterInterval(now: int, later: int, lasts: seq<int>, intervals: seq<int>, i: int)
    requires |lasts| == |intervals| && 0 <= i < |lasts|
    requires Due(now, lasts[i], intervals[i])
    ensures
      var p := PlanTick(later, PlanTick(now, lasts, intervals).lasts, intervals);
      p.runs[i] <==> later >= now + intervals[i]
  {
  }
}
