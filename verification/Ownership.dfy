/**
 The inference owner's shared state and its lock blocks. Each function here is one
 `with self._state_lock` block of the source as a step on values; class InferenceOwner carries the
 blocks out on its fields and is proved to do exactly these steps.
 */
module Ownership {
  import opened Bytes

  type Generation = nat
  type WorkerId = nat
  type LeaseId = nat

  /** One generation of the classifier and the artifact paths it was resolved to. */
  datatype Descriptor = Descriptor(generation: Generation, paths: nat)

  datatype Worker = Worker(descriptor: Descriptor, leases: nat, retired: bool, cleaning: bool, reaped: bool)

  datatype Lease = Lease(descriptor: Descriptor, worker: Option<WorkerId>, released: bool)

  datatype Owner = Owner(
    workers: map<WorkerId, Worker>,          // every worker object so far, by identity
    index: map<Generation, WorkerId>,        // _states
    owned: set<WorkerId>,                    // _owned_states
    pending: map<Generation, nat>,           // _pending_leases
    leases: map<LeaseId, Lease>,             // every lease object so far, by identity
    active: Option<Generation>,
    spawning: nat,
    closing: bool)
  {
    /** References held by the tables lead to objects. */
    ghost predicate Linked() {
      && owned <= workers.Keys
      && (forall g <- index :: index[g] in workers && workers[index[g]].descriptor.generation == g)
      && (forall l <- leases :: leases[l].worker.Some? ==> leases[l].worker.value in workers)
    }

    function Pending(g: Generation): nat {
      if g in pending then pending[g] else 0
    }
  }

  const EMPTY := Owner(map[], map[], {}, map[], map[], None, 0, false)

  // ---------- looking up a worker ----------

  /** Conflict is the error for a generation id that resolved to different paths. */
  datatype Lookup = Missing | Conflict | Found(worker: WorkerId)

  function Usable(o: Owner, d: Descriptor, alive: set<WorkerId>): (r: Lookup)
    requires o.Linked()
    ensures r.Found? ==>
              && d.generation in o.index && r.worker == o.index[d.generation] && r.worker in alive
              && var s := o.workers[r.worker];
                 s.descriptor == d && !s.retired && !s.cleaning && !s.reaped
    ensures r.Conflict? <==> d.generation in o.index && o.workers[o.index[d.generation]].descriptor != d
  {
    if d.generation !in o.index then Missing
    else
      var w := o.index[d.generation];
      var s := o.workers[w];
      if s.descriptor != d then Conflict
      else if s.retired || s.cleaning || s.reaped || w !in alive then Missing
      else Found(w)
  }

  // ---------- spawning ----------

  function BeginSpawn(o: Owner): Option<Owner> {
    if o.closing then None else Some(o.(spawning := o.spawning + 1))
  }

  function Register(o: Owner, w: WorkerId, d: Descriptor): Owner {
    o.(workers := o.workers[w := Worker(d, 0, false, false, false)], owned := o.owned + {w})
  }

  function EndSpawn(o: Owner): Owner
    requires o.spawning > 0
  {
    o.(spawning := o.spawning - 1)
  }

  // ---------- cleanup ----------

  datatype Claim = Granted | Wait | Complete

  function ClaimOf(o: Owner, w: WorkerId): Claim
    requires w in o.workers
  {
    if o.workers[w].reaped then Complete else if o.workers[w].cleaning then Wait else Granted
  }

  function ClaimCleanup(o: Owner, w: WorkerId): Owner
    requires w in o.workers
  {
    if ClaimOf(o, w).Granted? then o.(workers := o.workers[w := o.workers[w].(cleaning := true)]) else o
  }

  function FinishCleanup(o: Owner, w: WorkerId, proved: bool): Owner
    requires w in o.workers
  {
    var s := o.workers[w].(cleaning := false);
    if !proved then o.(workers := o.workers[w := s])
    else
      var g := s.descriptor.generation;
      o.(workers := o.workers[w := s.(reaped := true)],
         owned := o.owned - {w},
         index := if g in o.index && o.index[g] == w then o.index - {g} else o.index)
  }

  // ---------- indexing a worker that reported READY ----------

  /** What becomes of the new worker: indexed, or handed back because another one (or none) serves. */
  datatype Enlisted = Selected | Redundant(existing: WorkerId) | Unresolved | EnlistConflict

  function EnlistOutcome(o: Owner, d: Descriptor, alive: set<WorkerId>): (r: Enlisted)
    requires o.Linked()
    ensures r.Redundant? ==> r.existing in o.workers && o.workers[r.existing].descriptor == d
  {
    if o.closing then Unresolved
    else match Usable(o, d, alive)
      case Conflict => EnlistConflict
      case Found(e) => Redundant(e)
      case Missing =>
        if d.generation in o.index && !o.workers[o.index[d.generation]].reaped then Unresolved else Selected
  }

  function Enlist(o: Owner, w: WorkerId, alive: set<WorkerId>): Owner
    requires o.Linked() && w in o.workers
  {
    var d := o.workers[w].descriptor;
    if EnlistOutcome(o, d, alive).Selected? then o.(index := o.index[d.generation := w]) else o
  }

  // ---------- leases ----------

  function LeaseOn(o: Owner, d: Descriptor, l: LeaseId, w: WorkerId): Owner
    requires w in o.workers
  {
    o.(workers := o.workers[w := o.workers[w].(leases := o.workers[w].leases + 1)],
       leases := o.leases[l := Lease(d, Some(w), false)])
  }

  function LeasePending(o: Owner, d: Descriptor, l: LeaseId): Owner {
    o.(pending := o.pending[d.generation := o.Pending(d.generation) + 1],
       leases := o.leases[l := Lease(d, None, false)])
  }

  function Reserve(o: Owner, d: Descriptor, l: LeaseId, alive: set<WorkerId>): Option<Owner>
    requires o.Linked()
  {
    if o.active != Some(d.generation) then None
    else match Usable(o, d, alive)
      case Conflict => None
      case Found(w) => Some(LeaseOn(o, d, l, w))
      case Missing => Some(LeasePending(o, d, l))
  }

  function DropPending(pending: map<Generation, nat>, g: Generation): map<Generation, nat> {
    if g !in pending || pending[g] <= 1 then pending - {g} else pending[g := pending[g] - 1]
  }

  function Attach(o: Owner, l: LeaseId, w: WorkerId): Option<Owner>
    requires l in o.leases && w in o.workers
  {
    var lease := o.leases[l];
    if lease.released || o.Pending(lease.descriptor.generation) == 0 then None
    else
      var s := o.workers[w];
      Some(o.(
        pending := DropPending(o.pending, lease.descriptor.generation),
        workers := o.workers[w := s.(leases := s.leases + 1,
                                     retired := s.retired || o.active != Some(lease.descriptor.generation))],
        leases := o.leases[l := lease.(worker := Some(w))]))
  }

  /** The clamp of the source: an attached count never drops below zero. */
  function Released(s: Worker): Worker {
    s.(leases := if s.leases == 0 then 0 else s.leases - 1)
  }

  function ReleaseOn(o: Owner, l: LeaseId, w: WorkerId): Owner
    requires l in o.leases && w in o.workers
  {
    o.(leases := o.leases[l := o.leases[l].(released := true)], workers := o.workers[w := Released(o.workers[w])])
  }

  function ReleasePending(o: Owner, l: LeaseId): Owner
    requires l in o.leases
  {
    o.(leases := o.leases[l := o.leases[l].(released := true)],
       pending := DropPending(o.pending, o.leases[l].descriptor.generation))
  }

  function Release(o: Owner, l: LeaseId): Owner
    requires l in o.leases && o.Linked()
  {
    if o.leases[l].released then o
    else match o.leases[l].worker
      case None => ReleasePending(o, l)
      case Some(w) => ReleaseOn(o, l, w)
  }

  /** The worker that the releasing caller must clean up. */
  function ReleaseHandsOut(o: Owner, l: LeaseId): Option<WorkerId>
    requires l in o.leases && o.Linked()
  {
    var lease := o.leases[l];
    if lease.released || lease.worker.None? then None
    else
      var s := Released(o.workers[lease.worker.value]);
      if s.retired && s.leases == 0 then lease.worker else None
  }

  // ---------- supersession ----------

  function RetireAllBut(workers: map<WorkerId, Worker>, owned: set<WorkerId>, keep: set<WorkerId>): map<WorkerId, Worker> {
    map w <- workers :: if w in owned then workers[w].(retired := w !in keep) else workers[w]
  }

  function Activate(o: Owner, d: Descriptor, alive: set<WorkerId>): Option<Owner>
    requires o.Linked()
  {
    if o.closing then None
    else match Usable(o, d, alive)
      case Found(w) => Some(o.(active := Some(d.generation), workers := RetireAllBut(o.workers, o.owned, {w})))
      case _ => None
  }

  /** The idle superseded workers that the activating caller must clean up. */
  function ActivateHandsOut(o: Owner, d: Descriptor, alive: set<WorkerId>): (r: set<WorkerId>)
    requires o.Linked()
    ensures r <= o.owned
  {
    if o.closing then {}
    else match Usable(o, d, alive)
      case Found(w) => set c <- o.owned | c != w && o.workers[c].leases == 0 && !o.workers[c].reaped
      case _ => {}
  }

  function Retire(o: Owner, w: WorkerId): Owner
    requires w in o.workers
  {
    o.(workers := o.workers[w := o.workers[w].(retired := true)])
  }

  // ---------- close ----------

  function BeginClose(o: Owner): Owner {
    o.(closing := true, active := None)
  }

  function CloseSnapshot(o: Owner): Owner {
    o.(workers := RetireAllBut(o.workers, o.owned, {}))
  }

  // ---------- the class ----------

  /** The owner's tables as fields. Worker and lease objects are rows of two tables keyed by identity. */
  class InferenceOwner {
    var workers: map<WorkerId, Worker>
    var index: map<Generation, WorkerId>
    var owned: set<WorkerId>
    var pending: map<Generation, nat>
    var leases: map<LeaseId, Lease>
    var active: Option<Generation>
    var spawning: nat
    var closing: bool

    ghost function View(): Owner
      reads this
    {
      Owner(workers, index, owned, pending, leases, active, spawning, closing)
    }

    constructor ()
      ensures View() == EMPTY
    {
      workers, index, owned, pending, leases := map[], map[], {}, map[], map[];
      active, spawning, closing := None, 0, false;
    }

    method UsableState(d: Descriptor, alive: set<WorkerId>) returns (r: Lookup)
      requires View().Linked()
      ensures r == Usable(View(), d, alive)
    {
      if d.generation !in index {
        return Missing;
      }
      var w := index[d.generation];
      var state := workers[w];
      if state.descriptor != d {
        return Conflict;
      }
      if state.retired || state.cleaning || state.reaped || w !in alive {
        return Missing;
      }
      return Found(w);
    }

    method TryBeginSpawn() returns (ok: bool)
      modifies this
      ensures ok <==> BeginSpawn(old(View())).Some?
      ensures View() == if ok then BeginSpawn(old(View())).value else old(View())
    {
      if closing {
        return false;
      }
      spawning := spawning + 1;
      return true;
    }

    method RegisterWorker(w: WorkerId, d: Descriptor)
      modifies this
      ensures View() == Register(old(View()), w, d)
    {
      workers := workers[w := Worker(d, 0, false, false, false)];
      owned := owned + {w};
    }

    method SpawnEnded()
      requires spawning > 0
      modifies this
      ensures View() == EndSpawn(old(View()))
    {
      spawning := spawning - 1;
    }

    method TryClaimCleanup(w: WorkerId) returns (claim: Claim)
      requires w in workers
      modifies this
      ensures claim == ClaimOf(old(View()), w)
      ensures View() == ClaimCleanup(old(View()), w)
    {
      if workers[w].reaped {
        return Complete;
      }
      if workers[w].cleaning {
        return Wait;
      }
      workers := workers[w := workers[w].(cleaning := true)];
      return Granted;
    }

    method CleanupFinished(w: WorkerId, proved: bool)
      requires w in workers
      modifies this
      ensures View() == FinishCleanup(old(View()), w, proved)
    {
      workers := workers[w := workers[w].(cleaning := false)];
      if proved {
        workers := workers[w := workers[w].(reaped := true)];
        owned := owned - {w};
        var g := workers[w].descriptor.generation;
        if g in index && index[g] == w {
          index := index - {g};
        }
      }
    }

    method EnlistReady(w: WorkerId, alive: set<WorkerId>) returns (r: Enlisted)
      requires View().Linked() && w in workers
      modifies this
      ensures r == EnlistOutcome(old(View()), old(workers[w].descriptor), alive)
      ensures View() == Enlist(old(View()), w, alive)
    {
      var d := workers[w].descriptor;
      if closing {
        return Unresolved;
      }
      var existing := UsableState(d, alive);
      if existing.Conflict? {
        return EnlistConflict;
      }
      if existing.Found? {
        return Redundant(existing.worker);
      }
      if d.generation in index && !workers[index[d.generation]].reaped {
        return Unresolved;
      }
      index := index[d.generation := w];
      return Selected;
    }

    method ReserveLease(d: Descriptor, l: LeaseId, alive: set<WorkerId>) returns (ok: bool)
      requires View().Linked()
      modifies this
      ensures ok <==> Reserve(old(View()), d, l, alive).Some?
      ensures View() == if ok then Reserve(old(View()), d, l, alive).value else old(View())
    {
      if active != Some(d.generation) {
        return false;
      }
      var state := UsableState(d, alive);
      match state {
        case Conflict => return false;
        case Found(w) =>
          workers := workers[w := workers[w].(leases := workers[w].leases + 1)];
          leases := leases[l := Lease(d, Some(w), false)];
        case Missing =>
          var count := if d.generation in pending then pending[d.generation] else 0;
          pending := pending[d.generation := count + 1];
          leases := leases[l := Lease(d, None, false)];
      }
      return true;
    }

    method AttachPendingLease(l: LeaseId, w: WorkerId) returns (ok: bool)
      requires l in leases && w in workers
      modifies this
      ensures ok <==> Attach(old(View()), l, w).Some?
      ensures View() == if ok then Attach(old(View()), l, w).value else old(View())
    {
      var lease := leases[l];
      var g := lease.descriptor.generation;
      if lease.released {
        return false;
      }
      if g !in pending || pending[g] == 0 {
        return false;
      }
      if pending[g] == 1 {
        pending := pending - {g};
      } else {
        pending := pending[g := pending[g] - 1];
      }
      workers := workers[w := workers[w].(leases := workers[w].leases + 1)];
      if active != Some(g) {
        workers := workers[w := workers[w].(retired := true)];
      }
      leases := leases[l := lease.(worker := Some(w))];
      return true;
    }

    method ReleaseLease(l: LeaseId) returns (cleanup: Option<WorkerId>)
      requires View().Linked() && l in leases
      modifies this
      ensures cleanup == ReleaseHandsOut(old(View()), l)
      ensures View() == Release(old(View()), l)
    {
      var lease := leases[l];
      cleanup := None;
      if lease.released {
        return;
      }
      leases := leases[l := lease.(released := true)];
      var g := lease.descriptor.generation;
      if lease.worker.None? {
        if g !in pending || pending[g] <= 1 {
          pending := pending - {g};
        } else {
          pending := pending[g := pending[g] - 1];
        }
      } else {
        var w := lease.worker.value;
        var count := if workers[w].leases == 0 then 0 else workers[w].leases - 1;
        workers := workers[w := workers[w].(leases := count)];
        if workers[w].retired && workers[w].leases == 0 {
          cleanup := Some(w);
        }
      }
    }

    /** The loop over the owned workers retires all but the new generation's and collects the idle ones. */
    method ActivateGeneration(d: Descriptor, alive: set<WorkerId>) returns (ok: bool, idle: set<WorkerId>)
      requires View().Linked()
      modifies this
      ensures ok <==> Activate(old(View()), d, alive).Some?
      ensures View() == if ok then Activate(old(View()), d, alive).value else old(View())
      ensures idle == ActivateHandsOut(old(View()), d, alive)
    {
      idle := {};
      if closing {
        return false, idle;
      }
      var state := UsableState(d, alive);
      if !state.Found? {
        return false, idle;
      }
      active := Some(d.generation);
      var remaining := owned;
      while remaining != {}
        invariant unchanged(`index, `owned, `pending, `leases, `spawning, `closing)
        invariant remaining <= owned <= old(workers).Keys
        invariant workers == RetireAllBut(old(workers), owned - remaining, {state.worker})
        invariant idle == set c <- owned - remaining |
                    c != state.worker && old(workers)[c].leases == 0 && !old(workers)[c].reaped
        invariant active == Some(d.generation)
      {
        var candidate :| candidate in remaining;
        remaining := remaining - {candidate};
        workers := workers[candidate := workers[candidate].(retired := candidate != state.worker)];
        if candidate != state.worker && workers[candidate].leases == 0 && !workers[candidate].reaped {
          idle := idle + {candidate};
        }
      }
      return true, idle;
    }

    method RetireWorker(w: WorkerId)
      requires w in workers
      modifies this
      ensures View() == Retire(old(View()), w)
    {
      workers := workers[w := workers[w].(retired := true)];
    }

    method StartClosing()
      modifies this
      ensures View() == BeginClose(old(View()))
    {
      closing := true;
      active := None;
    }

    method RetireOwned() returns (states: set<WorkerId>)
      requires View().Linked()
      modifies this
      ensures states == old(owned)
      ensures View() == CloseSnapshot(old(View()))
    {
      states := owned;
      var remaining := owned;
      while remaining != {}
        invariant remaining <= owned
        invariant workers == RetireAllBut(old(workers), owned - remaining, {})
        invariant unchanged(`index, `owned, `pending, `leases, `active, `spawning, `closing)
      {
        var state :| state in remaining;
        remaining := remaining - {state};
        workers := workers[state := workers[state].(retired := true)];
      }
    }
  }
}
