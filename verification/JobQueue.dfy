/** The set of job IDs that are being worked on. */
module JobQueue {
  import opened Protocol

  class JobQueue {
    var jobs: map<string, bool>

    /** The IDs registered. A lookup of an absent ID gives false. */
    ghost function Owned(): set<string>
      reads this
    {
      set id | id in jobs && jobs[id]
    }

    constructor ()
      ensures Owned() == EMPTY.jq
    {
      jobs := map[];
    }

    /** True exactly when no identical job is registered; then j is. This is the first step of every run of the
        protocol: it is admitted when Add returns true and else coalesces, and the job queue is what Add leaves. */
    method Add(j: Job) returns (added: bool)
      modifies this
      ensures added <==> j.id !in old(Owned())
      ensures Owned() == old(Owned()) + {j.id}
      ensures forall s: State, r: nat | s.jq == old(Owned()) && r in s.runs && s.runs[r] == NewRun(j) ::
                var a := By(r, if added then Ok else Busy);
                Legal(s, a) && Apply(s, a).jq == Owned() && (Owns(Apply(s, a).runs[r].pc) <==> added)
    {
      if j.id in jobs && jobs[j.id] {
        return false;
      }
      jobs := jobs[j.id := true];
      return true;
    }

    /** Exactly that ID is no longer registered, as after the last step of a run of the protocol. */
    method Delete(j: Job)
      modifies this
      ensures Owned() == old(Owned()) - {j.id}
      ensures forall s: State, r: nat |
                s.jq == old(Owned()) && r in s.runs && s.runs[r].job == j && s.runs[r].pc.Leave? ::
                Legal(s, By(r, Ok)) && Apply(s, By(r, Ok)).jq == Owned()
    {
      jobs := jobs - {j.id};
    }
  }
}
