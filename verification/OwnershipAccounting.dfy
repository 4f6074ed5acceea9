/**
 What every lock block keeps true of the owner's tables: lease conservation, the agreement of lease and
 worker descriptors, and ownership until proved termination.
 */
module OwnershipAccounting {
  import opened Bytes
  import opened Ownership

  /** Where an unreleased lease counts: on the worker it is attached to, or as pending for its generation. */
  datatype Place = On(worker: WorkerId) | PendingFor(generation: Generation)

  function PlaceOf(lease: Lease): Place {
    if lease.worker.Some? then On(lease.worker.value) else PendingFor(lease.descriptor.generation)
  }

  predicate HeldAt(lease: Lease, p: Place) {
    !lease.released && PlaceOf(lease) == p
  }

  function Held(leases: map<LeaseId, Lease>, p: Place): set<LeaseId> {
    set l | l in leases && HeldAt(leases[l], p)
  }

  /** Lease conservation: each counter is the number of unreleased leases at its place. */
  ghost predicate Counted(o: Owner) {
    && (forall w <- o.workers :: o.workers[w].leases == |Held(o.leases, On(w))|)
    && (forall g :: o.Pending(g) == |Held(o.leases, PendingFor(g))|)
  }

  ghost predicate Attached(o: Owner) {
    forall l <- o.leases :: o.leases[l].worker.Some? ==>
      && o.leases[l].worker.value in o.workers
      && o.workers[o.leases[l].worker.value].descriptor == o.leases[l].descriptor
  }

  /** A worker is owned exactly until it has been reaped. */
  ghost predicate OwnedUntilReaped(o: Owner) {
    && o.owned <= o.workers.Keys
    && forall w <- o.workers :: w in o.owned <==> !o.workers[w].reaped
  }

  /** While the owner is open, a worker that still serves leases of a superseded generation is marked for retirement. */
  ghost predicate Marked(o: Owner) {
    !o.closing ==> forall w <- o.owned :: w in o.workers && o.workers[w].leases > 0 ==>
      o.workers[w].retired || o.active == Some(o.workers[w].descriptor.generation)
  }

  ghost predicate Sound(o: Owner) {
    o.Linked() && OwnedUntilReaped(o) && Counted(o) && Attached(o) && Marked(o)
  }

  /** Superseded workers that no lease keeps busy and that still run. */
  function Idle(o: Owner): set<WorkerId> {
    set w | w in o.workers && o.workers[w].retired && o.workers[w].leases == 0 && !o.workers[w].reaped
  }

  /** A block that writes leases and counters and leaves the workers' lives alone. */
  ghost predicate LeasesOnly(o: Owner, next: Owner) {
    && SameWorkers(o, next)
    && (forall w <- o.workers :: next.workers[w].cleaning == o.workers[w].cleaning)
    && (forall l <- o.leases :: l in next.leases && next.leases[l].descriptor == o.leases[l].descriptor)
    && next.active == o.active && next.spawning == o.spawning && next.closing == o.closing
  }

  // ---------- counting ----------

  function One(b: bool): nat { if b then 1 else 0 }

  /** Writing one lease row moves at most that lease between places. */
  lemma HeldAfter(leases: map<LeaseId, Lease>, l: LeaseId, lease: Lease, p: Place)
    ensures |Held(leases[l := lease], p)| ==
            |Held(leases, p)| - One(l in Held(leases, p)) + One(HeldAt(lease, p))
  {
    var rest := Held(leases, p) - {l};
    HeldIs(leases, l, lease, p);
    if l !in Held(leases, p) { assert rest == Held(leases, p); }
  }

  lemma HeldIs(leases: map<LeaseId, Lease>, l: LeaseId, lease: Lease, p: Place)
    ensures Held(leases[l := lease], p) == Held(leases, p) - {l} + if HeldAt(lease, p) then {l} else {}
  {
  }

  /** The change of a place's count when row l becomes the given lease. */
  function Change(leases: map<LeaseId, Lease>, l: LeaseId, lease: Lease, p: Place): int {
    One(HeldAt(lease, p)) - One(l in leases && HeldAt(leases[l], p))
  }

  ghost predicate CountersFollow(o: Owner, next: Owner, l: LeaseId, lease: Lease) {
    && next.workers.Keys == o.workers.Keys
    && (forall w <- o.workers :: next.workers[w].leases == o.workers[w].leases + Change(o.leases, l, lease, On(w)))
    && (forall g :: next.Pending(g) == o.Pending(g) + Change(o.leases, l, lease, PendingFor(g)))
  }

  ghost predicate SameWorkers(o: Owner, next: Owner) {
    && next.index == o.index && next.owned == o.owned && next.workers.Keys == o.workers.Keys
    && forall w <- o.workers ::
         next.workers[w].descriptor == o.workers[w].descriptor && next.workers[w].reaped == o.workers[w].reaped
  }

  /** One lease row written, its place's counter moved accordingly, the workers otherwise as they were. */
  lemma LeaseWriteKeeps(o: Owner, next: Owner, l: LeaseId, lease: Lease)
    requires Sound(o) && SameWorkers(o, next) && next.leases == o.leases[l := lease]
    requires lease.worker.Some? ==>
               lease.worker.value in o.workers && o.workers[lease.worker.value].descriptor == lease.descriptor
    requires CountersFollow(o, next, l, lease) && Marked(next)
    ensures Sound(next)
  {
    forall w <- next.workers ensures next.workers[w].leases == |Held(next.leases, On(w))| {
      HeldAfter(o.leases, l, lease, On(w));
    }
    forall g ensures next.Pending(g) == |Held(next.leases, PendingFor(g))| {
      HeldAfter(o.leases, l, lease, PendingFor(g));
    }
  }

  // ---------- what each block keeps ----------

  lemma RegisterKeeps(o: Owner, w: WorkerId, d: Descriptor)
    requires Sound(o) && w !in o.workers
    ensures Sound(Register(o, w, d))
  {
    assert Held(o.leases, On(w)) == {};
  }

  /** Rewriting what the books do not count: only the retirement marks have to be looked at again. */
  lemma MarksKeep(o: Owner, next: Owner)
    requires Sound(o) && Marked(next) && SameWorkers(o, next)
    requires next.leases == o.leases && next.pending == o.pending
    requires forall w <- o.workers :: next.workers[w].leases == o.workers[w].leases
    ensures Sound(next)
  {
  }

  lemma ClaimKeeps(o: Owner, w: WorkerId)
    requires Sound(o) && w in o.workers
    ensures Sound(ClaimCleanup(o, w))
  {
    ClaimShape(o, w);
    MarksKeep(o, ClaimCleanup(o, w));
  }

  lemma ClaimShape(o: Owner, w: WorkerId)
    requires w in o.workers && Marked(o)
    ensures var next := ClaimCleanup(o, w);
            && SameWorkers(o, next) && Marked(next) && next.leases == o.leases && next.pending == o.pending
            && forall v <- o.workers :: next.workers[v].leases == o.workers[v].leases
  {
  }

  lemma FinishKeeps(o: Owner, w: WorkerId, proved: bool)
    requires Sound(o) && w in o.workers
    ensures Sound(FinishCleanup(o, w, proved))
  {
    var next := FinishCleanup(o, w, proved);
    assert OwnedUntilReaped(next);
    assert Counted(next);
    assert Attached(next);
  }

  lemma EnlistKeeps(o: Owner, w: WorkerId, alive: set<WorkerId>)
    requires Sound(o) && w in o.workers
    ensures Sound(Enlist(o, w, alive))
  {
  }

  lemma LeaseOnKeeps(o: Owner, d: Descriptor, l: LeaseId, w: WorkerId)
    requires Sound(o) && l !in o.leases && w in o.workers && o.workers[w].descriptor == d
    requires o.active == Some(d.generation)
    ensures Sound(LeaseOn(o, d, l, w)) && LeasesOnly(o, LeaseOn(o, d, l, w))
    ensures Idle(LeaseOn(o, d, l, w)) <= Idle(o)
  {
    LeaseOnShape(o, d, l, w);
    LeaseOnFollows(o, d, l, w);
    var next := LeaseOn(o, d, l, w);
    LeaseWriteKeeps(o, next, l, next.leases[l]);
  }

  lemma LeaseOnFollows(o: Owner, d: Descriptor, l: LeaseId, w: WorkerId)
    requires l !in o.leases && w in o.workers
    ensures var next := LeaseOn(o, d, l, w); CountersFollow(o, next, l, next.leases[l])
  {
  }

  lemma LeaseOnShape(o: Owner, d: Descriptor, l: LeaseId, w: WorkerId)
    requires l !in o.leases && w in o.workers && Marked(o)
    requires o.workers[w].descriptor == d && o.active == Some(d.generation)
    ensures var next := LeaseOn(o, d, l, w); LeasesOnly(o, next) && Marked(next) && Idle(next) <= Idle(o)
  {
  }

  lemma LeasePendingKeeps(o: Owner, d: Descriptor, l: LeaseId)
    requires Sound(o) && l !in o.leases
    ensures Sound(LeasePending(o, d, l)) && LeasesOnly(o, LeasePending(o, d, l))
    ensures Idle(LeasePending(o, d, l)) == Idle(o)
  {
    var next := LeasePending(o, d, l);
    assert CountersFollow(o, next, l, next.leases[l]);
    LeaseWriteKeeps(o, next, l, next.leases[l]);
  }

  lemma ReserveKeeps(o: Owner, d: Descriptor, l: LeaseId, alive: set<WorkerId>)
    requires Sound(o) && l !in o.leases && Reserve(o, d, l, alive).Some?
    ensures Sound(Reserve(o, d, l, alive).value) && LeasesOnly(o, Reserve(o, d, l, alive).value)
    ensures Idle(Reserve(o, d, l, alive).value) <= Idle(o)
  {
    match Usable(o, d, alive) {
      case Found(w) => LeaseOnKeeps(o, d, l, w);
      case Missing => LeasePendingKeeps(o, d, l);
    }
  }

  lemma AttachFollows(o: Owner, l: LeaseId, w: WorkerId)
    requires l in o.leases && w in o.workers && o.leases[l].worker.None? && Attach(o, l, w).Some?
    ensures var next := Attach(o, l, w).value; CountersFollow(o, next, l, next.leases[l])
  {
  }

  lemma AttachShape(o: Owner, l: LeaseId, w: WorkerId)
    requires l in o.leases && w in o.workers && Attach(o, l, w).Some? && Marked(o)
    requires o.workers[w].descriptor == o.leases[l].descriptor
    ensures var next := Attach(o, l, w).value; LeasesOnly(o, next) && Marked(next) && Idle(next) <= Idle(o)
  {
  }

  lemma AttachKeeps(o: Owner, l: LeaseId, w: WorkerId)
    requires Sound(o) && l in o.leases && w in o.workers && o.leases[l].worker.None?
    requires o.workers[w].descriptor == o.leases[l].descriptor && Attach(o, l, w).Some?
    ensures Sound(Attach(o, l, w).value) && LeasesOnly(o, Attach(o, l, w).value)
    ensures Idle(Attach(o, l, w).value) <= Idle(o)
  {
    AttachFollows(o, l, w);
    AttachShape(o, l, w);
    var next := Attach(o, l, w).value;
    LeaseWriteKeeps(o, next, l, next.leases[l]);
  }

  /** The release clamps never act: the counter of an unreleased lease is positive. */
  lemma {:induction false} ClampsNeverAct(o: Owner, l: LeaseId)
    requires Sound(o) && l in o.leases && !o.leases[l].released
    ensures var place := PlaceOf(o.leases[l]);
            match place case On(w) => o.workers[w].leases > 0 case PendingFor(g) => o.Pending(g) > 0
  {
    assert l in Held(o.leases, PlaceOf(o.leases[l]));
  }

  function HandedOut(o: Owner, l: LeaseId): set<WorkerId>
    requires l in o.leases && o.Linked()
  {
    if ReleaseHandsOut(o, l).Some? then {ReleaseHandsOut(o, l).value} else {}
  }

  /** The last release from a superseded worker hands that worker out. */
  lemma ReleaseOnHandsOut(o: Owner, l: LeaseId, w: WorkerId)
    requires Sound(o) && l in o.leases && !o.leases[l].released && o.leases[l].worker == Some(w)
    ensures Idle(ReleaseOn(o, l, w)) <= Idle(o) + HandedOut(o, l)
  {
    var next := ReleaseOn(o, l, w);
    forall v <- Idle(next) ensures v in Idle(o) + HandedOut(o, l) {
      assert v != w ==> next.workers[v] == o.workers[v];
    }
  }

  lemma ReleaseOnShape(o: Owner, l: LeaseId, w: WorkerId)
    requires l in o.leases && w in o.workers && Marked(o)
    ensures LeasesOnly(o, ReleaseOn(o, l, w)) && Marked(ReleaseOn(o, l, w))
  {
  }

  lemma ReleaseOnKeeps(o: Owner, l: LeaseId, w: WorkerId)
    requires Sound(o) && l in o.leases && !o.leases[l].released && o.leases[l].worker == Some(w)
    ensures Sound(ReleaseOn(o, l, w)) && LeasesOnly(o, ReleaseOn(o, l, w))
  {
    ClampsNeverAct(o, l);
    ReleaseOnShape(o, l, w);
    var next := ReleaseOn(o, l, w);
    assert CountersFollow(o, next, l, next.leases[l]);
    LeaseWriteKeeps(o, next, l, next.leases[l]);
  }

  lemma ReleasePendingKeeps(o: Owner, l: LeaseId)
    requires Sound(o) && l in o.leases && !o.leases[l].released && o.leases[l].worker.None?
    ensures Sound(ReleasePending(o, l)) && LeasesOnly(o, ReleasePending(o, l))
    ensures Idle(ReleasePending(o, l)) == Idle(o)
  {
    ClampsNeverAct(o, l);
    var next := ReleasePending(o, l);
    assert CountersFollow(o, next, l, next.leases[l]);
    LeaseWriteKeeps(o, next, l, next.leases[l]);
  }

  lemma ReleaseLeavesAttachments(o: Owner, l: LeaseId)
    requires l in o.leases && o.Linked()
    ensures HandedOut(o, l) <= o.workers.Keys
    ensures forall k <- o.leases :: Release(o, l).leases[k].worker == o.leases[k].worker
  {
  }

  lemma ReleaseKeeps(o: Owner, l: LeaseId)
    requires Sound(o) && l in o.leases
    ensures Sound(Release(o, l)) && LeasesOnly(o, Release(o, l))
    ensures Idle(Release(o, l)) <= Idle(o) + HandedOut(o, l)
  {
    if !o.leases[l].released {
      match o.leases[l].worker {
        case None => ReleasePendingKeeps(o, l);
        case Some(w) => ReleaseOnKeeps(o, l, w); ReleaseOnHandsOut(o, l, w);
      }
    }
  }

  lemma RetiringKeeps(o: Owner, keep: set<WorkerId>, active: Option<Generation>)
    requires Sound(o) && forall w <- keep :: w in o.workers && active == Some(o.workers[w].descriptor.generation)
    ensures Sound(o.(active := active, workers := RetireAllBut(o.workers, o.owned, keep)))
  {
    MarksKeep(o, o.(active := active, workers := RetireAllBut(o.workers, o.owned, keep)));
  }

  lemma RetireKeeps(o: Owner, w: WorkerId)
    requires Sound(o) && w in o.workers
    ensures Sound(Retire(o, w)) && Idle(Retire(o, w)) <= Idle(o) + {w}
  {
    MarksKeep(o, Retire(o, w));
  }
}
