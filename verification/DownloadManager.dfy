/** The manager object: each method is one critical section of its mutex, and
    moves the object's state exactly as the queue model does. */
module DownloadManager {
  import Q = DownloadQueue

  class Manager {
    var active: map<string, string>
    var completed: map<string, string>
    var completedOrder: seq<string>
    var jobs: seq<string>
    const queueSize: nat
    var closed: bool
    var cancelled: bool
    var chanClosed: bool
    // What goes on outside the mutex.
    ghost var workers: seq<Q.Worker>
    ghost var window: multiset<string>
    ghost var history: seq<string>

    ghost function State(): Q.State
      reads this
    {
      Q.State(active, completed, completedOrder, jobs, queueSize, closed, chanClosed, cancelled, false,
              workers, window, history)
    }

    constructor (queueSize: nat, ghost workers: nat)
      ensures State() == Q.Init(queueSize, workers) && Q.Inv(State())
    {
      active, completed, completedOrder, jobs := map[], map[], [], [];
      closed, cancelled, chanClosed := false, false, false;
      this.queueSize := queueSize;
      this.workers, window, history := seq(workers, _ => Q.Idle), multiset{}, [];
      new;
      Q.InitInv(queueSize, workers);
    }

    /** A non-blocking send: a send on the closed channel would panic. */
    method TrySend(key: string) returns (sent: bool)
      requires !chanClosed
      modifies `jobs
      ensures sent == (|old(jobs)| < queueSize)
      ensures jobs == if sent then old(jobs) + [key] else old(jobs)
    {
      sent := |jobs| < queueSize;
      if sent {
        jobs := jobs + [key];
      }
    }

    /** The locked part of Submit. */
    method Submit(key: string) returns (reply: Q.Reply)
      requires Q.Inv(State())
      modifies this
      ensures (State(), reply) == Q.Submit(old(State()), key)
      ensures Q.Inv(State())
    {
      hide Q.HoldInv, Q.CacheInv, Q.FreshInv;
      Q.ApplyKeepsInv(State(), Q.SubmitLocked(key));
      if closed {
        return Q.Dropped;
      }
      if key in completed {
        return Q.Repeated(completed[key]);
      }
      if key in active {
        return Q.Progressing(active[key]);
      }
      active := active[key := "QUEUED"];
      var sent := TrySend(key);
      if sent {
        reply := Q.Queued;
      } else {
        window := window + multiset{key};
        reply := Q.Full;
      }
    }

    /** finish, called by a worker. */
    method Finish(key: string, ghost w: nat)
      requires Q.Inv(State()) && w < |workers| && workers[w] == Q.Finishing(key)
      modifies this
      ensures State() == Q.Apply(old(State()), Q.Finish(w)) && Q.Inv(State())
    {
      hide Q.HoldInv, Q.CacheInv, Q.FreshInv;
      Q.ApplyKeepsInv(State(), Q.Finish(w));
      active := active - {key};
      workers := workers[w := Q.Idle];
    }

    /** finish, called by a submitter that met a full queue. */
    method FinishSubmit(key: string)
      requires Q.Inv(State()) && key in window
      modifies this
      ensures State() == Q.Apply(old(State()), Q.SubmitFinish(key)) && Q.Inv(State())
    {
      hide Q.HoldInv, Q.CacheInv, Q.FreshInv;
      Q.ApplyKeepsInv(State(), Q.SubmitFinish(key));
      active := active - {key};
      window := window - multiset{key};
    }

    method SetStatus(key: string, status: string, ghost w: nat)
      requires Q.Inv(State()) && w < |workers| && workers[w] == Q.Running(key)
      modifies this
      ensures State() == Q.Apply(old(State()), Q.SetStatus(w, status)) && Q.Inv(State())
    {
      hide Q.HoldInv, Q.CacheInv, Q.FreshInv;
      Q.ApplyKeepsInv(State(), Q.SetStatus(w, status));
      active := active[key := status];
    }

    method Remember(key: string, result: string, ghost w: nat)
      requires Q.Inv(State()) && w < |workers| && workers[w] == Q.Running(key)
      modifies this
      ensures State() == Q.Apply(old(State()), Q.Remember(w, result)) && Q.Inv(State())
    {
      hide Q.HoldInv, Q.CacheInv, Q.FreshInv;
      Q.ApplyKeepsInv(State(), Q.Remember(w, result));
      if key !in completed {
        completedOrder := completedOrder + [key];
      }
      completed := completed[key := result];
      if |completedOrder| > Q.CACHE_SIZE {
        var oldest := completedOrder[0];
        completedOrder := completedOrder[1..];
        completed := completed - {oldest};
      }
      workers := workers[w := Q.Finishing(key)];
      history := history + [key];
    }

    /** The locked part of Close. */
    method Close()
      requires Q.Inv(State())
      modifies this
      ensures State() == Q.Shut(old(State())) && Q.Inv(State())
    {
      hide Q.HoldInv, Q.CacheInv, Q.FreshInv;
      Q.ApplyKeepsInv(State(), Q.CloseLocked);
      if !closed {
        closed := true;
        cancelled := true;
        CloseChannel();
      }
    }

    /** Closing a closed channel would panic. */
    method CloseChannel()
      requires !chanClosed
      modifies `chanClosed
      ensures chanClosed
    {
      chanClosed := true;
    }
  }
}
