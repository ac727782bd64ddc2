/** How multipart fills a scheduler before the first worker starts. */
module Multipart {
  import opened Sidecar
  import opened Snapshots
  import M = SchedulerModel
  import Scheduling

  /** From an accepted sidecar: the ranges that lack bytes become pending, and
      the bytes that lack none are the resumed ones. */
  method Resume(st: StateFile, minSize: int) returns (sched: Scheduling.Scheduler, resumed: int)
    requires minSize >= 1
    ensures fresh(sched) && sched.Valid() && sched.view == Seeded(st.chunks, |st.chunks|, minSize)
    ensures Loadable(st) ==> 0 <= resumed <= st.size && resumed + |NeedSet(st.chunks)| == st.size
  {
    sched := new Scheduling.Scheduler(minSize);
    for i := 0 to |st.chunks|
      invariant fresh(sched) && sched.Valid() && sched.view == Seeded(st.chunks, i, minSize)
    {
      var c := st.chunks[i];
      if c.done < c.end - c.off {
        sched.AddPending(c.off, c.end, c.done);
      }
    }
    var missing := Remaining(st);
    resumed := st.size - missing;
  }

  /** With no sidecar to trust, everything is pending. */
  method Afresh(total: int, minSize: int) returns (sched: Scheduling.Scheduler)
    requires minSize >= 1
    ensures fresh(sched) && sched.Valid() && sched.view == M.AddPending(M.Empty(minSize), 0, total, 0)
  {
    sched := new Scheduling.Scheduler(minSize);
    sched.AddPending(0, total, 0);
  }
}
