/**
 What a power loss can leave behind. Directory entries and file contents reach the medium when they are
 fsynced; until then a changed entry may or may not have reached it. Operations of the store do not
 overlap here, each of their primitives may be the last, and every state in between is recorded.
 */
module StoreDurability {
  import opened Bytes
  import opened StoreProtocol

  datatype File = ModelFile | ThresholdsFile | ManifestFile

  const FILES: set<File> := {ModelFile, ThresholdsFile, ManifestFile}

  /** A directory's files, those whose contents are on the medium, and whether its own entries are. */
  datatype Node = Node(dir: Dir, synced: set<File>, listed: bool) {
    predicate Durable() { synced == FILES && listed }
  }

  datatype Medium = Medium(
    hasGenerations: bool,           // the entry `generations` exists in the root
    generationsSynced: bool,        // and is on the medium
    hasLock: bool,                  // the lock file exists in the root
    nodes: map<Name, Node>,         // the entries of `generations`
    synced: set<Name>,              // those whose entry is on the medium
    pointer: Option<Pointer>,
    possible: set<Option<Pointer>>) // what the pointer file may be after a power loss

  /** After a power loss now, a pointer that is left names a directory that is left, complete and correct. */
  ghost predicate PowerSafe(or: Oracle, m: Medium) {
    && m.pointer in m.possible
    && forall v <- m.possible :: v.Some? ==>
         var n := Generation(v.value.generation);
         && m.generationsSynced && n in m.nodes && n in m.synced
         && m.nodes[n].Durable() && Agrees(or, m.nodes[n].dir, v.value.generation)
  }

  // ---------- primitives ----------

  function MakeGenerations(m: Medium): Medium {
    if m.hasGenerations then m else m.(hasGenerations := true, generationsSynced := false)
  }

  function MakeLock(m: Medium): Medium { m.(hasLock := true) }

  function SyncRoot(m: Medium): Medium {
    m.(generationsSynced := m.hasGenerations, possible := {m.pointer})
  }

  function SyncGenerations(m: Medium): Medium { m.(synced := m.nodes.Keys) }

  function MakeDirectory(m: Medium, n: Name): Medium {
    m.(nodes := m.nodes[n := Node(Dir(None, None, None), {}, false)], synced := m.synced - {n})
  }

  function WithFile(node: Node, f: File, content: Text, manifest: Option<Manifest>): Node {
    var dir := match f
      case ModelFile => node.dir.(model := Some(content))
      case ThresholdsFile => node.dir.(thresholds := Some(content))
      case ManifestFile => node.dir.(manifest := manifest);
    Node(dir, node.synced - {f}, false)
  }

  function OnNode(m: Medium, n: Name, node: Node): Medium { m.(nodes := m.nodes[n := node]) }

  function Rename(m: Medium, from: Name, to: Name): Medium
    requires from in m.nodes
  {
    m.(nodes := (m.nodes - {from})[to := m.nodes[from]], synced := m.synced - {from, to})
  }

  function Remove(m: Medium, n: Name): Medium { m.(nodes := m.nodes - {n}, synced := m.synced - {n}) }

  function ReplacePointer(m: Medium, p: Pointer): Medium {
    m.(pointer := Some(p), possible := m.possible + {Some(p)})
  }

  // ---------- what holds between operations ----------

  /** Every visible generation was renamed from a complete, fsynced stage. */
  ghost predicate Renamed(m: Medium) {
    forall g: GenerationId :: Generation(g) in m.nodes ==> m.nodes[Generation(g)].Durable()
  }

  ghost predicate Settled(or: Oracle, m: Medium) {
    PowerSafe(or, m) && Renamed(m) && (m.generationsSynced ==> m.hasGenerations)
  }

  /** The operation will fsync the root before it can replace the pointer, or has no need to. */
  predicate Anchored(m: Medium) {
    m.generationsSynced || !m.hasGenerations || !m.hasLock
  }

  // ---------- power loss ----------

  /**
   A medium that a power loss can leave of m: what was on it stays, anything else of the root may be there or not,
   the pointer file is one of the possible ones, and staging directories may be left or come back in any state.
   */
  predicate SurvivesAs(m: Medium, after: Medium) {
    && (after.hasLock ==> m.hasLock)
    && (m.generationsSynced ==> after.hasGenerations) && (after.hasGenerations ==> m.hasGenerations)
    && after.generationsSynced == after.hasGenerations
    && (!after.hasGenerations ==> after.nodes == map[])
    && (after.hasGenerations ==> forall n <- m.synced :: n in m.nodes ==> n in after.nodes)
    && (forall n <- after.nodes :: n.Generation? ==> n in m.nodes && (m.nodes[n].Durable() ==> after.nodes[n] == m.nodes[n]))
    && after.synced == after.nodes.Keys
    && after.pointer in m.possible && after.possible == {after.pointer}
  }

  /** The next start finds everything it needs, and an anchored root. */
  lemma SurvivorIsSettled(or: Oracle, m: Medium, after: Medium)
    requires Settled(or, m) && SurvivesAs(m, after)
    ensures Settled(or, after) && Anchored(after)
  {
  }

  // ---------- the operations ----------

  /** What the environment does to the next primitive: nothing, an exception, or a crash. */
  datatype Fate = Proceeds | Throws | Dies

  datatype Installation = Installation(k: StageId, model: seq<Text>, thresholds: seq<Text>,
                                       announced: (int, int), limits: (nat, nat), remote: ETags,
                                       left: Option<Medium>)  // by a power loss behind the call, if there is one

  /** The bytes of a list of chunks, in order. */
  function Joined(chunks: seq<Text>): Text {
    if chunks == [] then [] else Joined(chunks[..|chunks| - 1]) + chunks[|chunks| - 1]
  }

  /** The pointer that installing these two files publishes. */
  function NewPointer(or: Oracle, model: seq<Text>, thresholds: seq<Text>, remote: ETags): Pointer {
    Pointer(Manifested(or, Joined(model), Joined(thresholds)).generation, remote)
  }

  function NewPointers(or: Oracle, calls: seq<Installation>): set<Option<Pointer>> {
    set c <- calls :: Some(NewPointer(or, c.model, c.thresholds, c.remote))
  }

  /** The fate of the primitive with this number; when the choices run out the process has crashed. */
  function FateAt(fates: seq<Fate>, i: nat): Fate {
    if i < |fates| then fates[i] else Dies
  }

  /** How many choices preparing the directories takes from number i on, and what it leaves. */
  function PrepareTicks(m: Medium, fates: seq<Fate>, i: nat): nat {
    if m.hasGenerations || !FateAt(fates, i).Proceeds? then 1 else if !FateAt(fates, i + 1).Proceeds? then 2 else 3
  }

  function PreparedBy(m: Medium, fates: seq<Fate>, i: nat): Medium {
    if m.hasGenerations || !FateAt(fates, i).Proceeds? then m
    else if !FateAt(fates, i + 1).Proceeds? then MakeGenerations(m)
    else SyncRoot(MakeGenerations(m))
  }

  /** The same for the set-up of the lock behind it. */
  function LockTicks(m: Medium, fates: seq<Fate>, i: nat): nat {
    var n := PrepareTicks(m, fates, i);
    if !FateAt(fates, i + n - 1).Proceeds? then n
    else if PreparedBy(m, fates, i).hasLock || !FateAt(fates, i + n).Proceeds? then n + 1
    else if !FateAt(fates, i + n + 1).Proceeds? then n + 2
    else n + 3
  }

  function LockedBy(m: Medium, fates: seq<Fate>, i: nat): Medium {
    var n, prepared := i + PrepareTicks(m, fates, i), PreparedBy(m, fates, i);
    if !FateAt(fates, n - 1).Proceeds? || prepared.hasLock || !FateAt(fates, n).Proceeds? then prepared
    else if !FateAt(fates, n + 1).Proceeds? then MakeLock(prepared)
    else SyncRoot(MakeLock(prepared))
  }

  /** A body of exactly the announced size, within the limit. */
  predicate Fits(chunks: seq<Text>, announced: int, limit: nat) {
    |Joined(chunks)| == announced <= limit
  }

  /** The two bodies can be published: both fit, they load, and a directory that has their id already is theirs and loads. */
  predicate Publishable(or: Oracle, nodes: map<Name, Node>, model: seq<Text>, thresholds: seq<Text>,
      announced: (int, int), limits: (nat, nat))
  {
    && Fits(model, announced.0, limits.0) && Fits(thresholds, announced.1, limits.1)
    && or.loads(Joined(model), Joined(thresholds))
    && Accepts(or, nodes, Manifested(or, Joined(model), Joined(thresholds)).generation)
  }

  /** A directory that has the generation's name already is that generation and loads. */
  predicate Accepts(or: Oracle, nodes: map<Name, Node>, g: GenerationId) {
    Generation(g) in nodes ==> Agrees(or, nodes[Generation(g)].dir, g) && Loads(or, nodes[Generation(g)].dir)
  }

  /** Whatever happens to a stage. */
  lemma AcceptsWhateverIsStaged(or: Oracle, nodes: map<Name, Node>, others: map<Name, Node>, k: StageId, g: GenerationId)
    requires nodes - {Staging(k)} == others - {Staging(k)}
    ensures Accepts(or, nodes, g) <==> Accepts(or, others, g)
  {
    assert Generation(g) in nodes <==> Generation(g) in nodes - {Staging(k)};
    assert Generation(g) in others <==> Generation(g) in others - {Staging(k)};
  }

  lemma {:induction false} JoinedGrows(chunks: seq<Text>, i: nat)
    requires i <= |chunks|
    ensures |Joined(chunks[..i])| <= |Joined(chunks)|
    decreases |chunks|
  {
    if i < |chunks| {
      var front := chunks[..|chunks| - 1];
      JoinedGrows(front, i);
      assert front[..i] == chunks[..i];
    } else {
      assert chunks[..i] == chunks;
    }
  }

  class Disk {
    const or: Oracle
    var m: Medium
    const fates: seq<Fate>          // the environment's choices; once they run out the process has crashed
    var next: nat                   // how many of them were taken
    ghost var trace: seq<Medium>    // the state after every primitive

    constructor (or: Oracle, m: Medium, fates: seq<Fate>)
      ensures this.or == or && this.m == m && this.fates == fates && next == 0 && trace == []
    {
      this.or, this.m, this.fates, this.next, this.trace := or, m, fates, 0, [];
    }

    /** Every state recorded since then is power safe, with one of the given pointers left. */
    ghost predicate SafeSince(since: seq<Medium>, allowed: set<Option<Pointer>>)
      reads this
    {
      && since <= trace
      && forall i | |since| <= i < |trace| :: PowerSafe(or, trace[i]) && trace[i].possible <= allowed
    }

    /** Some state recorded since then would lose a generation to a power loss. */
    ghost predicate ExposedSince(since: seq<Medium>)
      reads this
    {
      since <= trace && exists i | |since| <= i < |trace| :: !PowerSafe(or, trace[i])
    }

    /** None of the choices from one number up to another is a failure. */
    predicate Proceeding(from: nat, to: nat) {
      forall i | from <= i < to :: FateAt(fates, i).Proceeds?
    }

    method Tick() returns (fate: Fate)
      modifies this`next
      ensures fate == FateAt(fates, old(next)) && next == old(next) + 1
    {
      fate := FateAt(fates, next);
      next := next + 1;
    }

    method Do(after: Medium)
      modifies this`m, this`trace
      ensures m == after && trace == old(trace) + [after]
    {
      m := after;
      trace := trace + [after];
    }

    /** `_prepare_directories`, for an existing root. */
    method PrepareDirectories() returns (fate: Fate)
      requires Settled(or, m)
      modifies this
      ensures Settled(or, m) && SafeSince(old(trace), old(m.possible))
      ensures m.nodes == old(m.nodes) && m.synced == old(m.synced) && m.hasLock == old(m.hasLock)
      ensures m.pointer == old(m.pointer) && m.possible <= old(m.possible)
      ensures old(m.generationsSynced) ==> m.generationsSynced
      ensures fate.Proceeds? ==> m.hasGenerations
      ensures fate.Proceeds? ==> m.generationsSynced == (old(m.generationsSynced) || !old(m.hasGenerations))
      ensures old(m.hasGenerations) ==> m == old(m)
      ensures m == PreparedBy(old(m), fates, old(next)) && next == old(next) + PrepareTicks(old(m), fates, old(next))
      ensures fate == FateAt(fates, next - 1) && (fate.Proceeds? <==> Proceeding(old(next), next))
    {
      fate := Tick();
      if fate.Proceeds? && !m.hasGenerations {
        Do(MakeGenerations(m));
        fate := Tick();
        if fate.Proceeds? {
          Do(SyncRoot(m));
          fate := Tick();
        }
      }
    }

    /** The set-up of `_process_lock`: the lock file's entry is fsynced by the call that creates it. */
    method LockFile() returns (fate: Fate)
      requires Settled(or, m)
      modifies this
      ensures Settled(or, m) && SafeSince(old(trace), old(m.possible))
      ensures m.nodes == old(m.nodes) && m.synced == old(m.synced)
      ensures m.pointer == old(m.pointer) && m.possible <= old(m.possible)
      ensures old(m.generationsSynced) ==> m.generationsSynced
      ensures fate.Proceeds? ==> m.hasGenerations && m.hasLock && (m.generationsSynced <==> old(Anchored(m)))
      ensures m == LockedBy(old(m), fates, old(next)) && next == old(next) + LockTicks(old(m), fates, old(next))
      ensures fate == FateAt(fates, next - 1) && (fate.Proceeds? <==> Proceeding(old(next), next))
    {
      fate := PrepareDirectories();
      if !fate.Proceeds? {
        return;
      }
      fate := Tick();
      if fate.Proceeds? && !m.hasLock {
        Do(MakeLock(m));
        fate := Tick();
        if fate.Proceeds? {
          Do(SyncRoot(m));
          fate := Tick();
        }
      }
    }

    /** Nothing but the contents of one staging directory changed, safely at every step. */
    twostate predicate OnlyStage(k: StageId)
      reads this
    {
      && Settled(or, m) && SafeSince(old(trace), old(m.possible))
      && Staging(k) in m.nodes && m.nodes.Keys == old(m.nodes).Keys
      && m.nodes - {Staging(k)} == old(m.nodes) - {Staging(k)}
      && m == old(m).(nodes := m.nodes)
    }

    /** `_new_stage`: its fsync also settles every entry that an earlier call renamed; a stage that exists is an error. */
    method NewStage(k: StageId) returns (fate: Fate)
      requires Settled(or, m) && m.hasGenerations
      modifies this
      ensures Settled(or, m) && SafeSince(old(trace), old(m.possible))
      ensures m == old(m).(nodes := m.nodes, synced := m.synced)
      ensures m.nodes - {Staging(k)} == old(m.nodes) - {Staging(k)}
      ensures Staging(k) in old(m.nodes) ==> m == old(m)
      ensures old(next) <= next
      ensures fate.Proceeds? <==> Staging(k) !in old(m.nodes) && Proceeding(old(next), next)
      ensures fate.Proceeds? ==> m.synced == m.nodes.Keys && Staging(k) in m.nodes && m.nodes[Staging(k)].synced == {}
    {
      fate := PrepareDirectories();
      assert m == old(m);
      if !fate.Proceeds? {
        return;
      }
      fate := Tick();
      if !fate.Proceeds? {
        return;
      }
      if Staging(k) in m.nodes {
        return Throws;
      }
      Do(MakeDirectory(m, Staging(k)));
      assert Settled(or, m) && SafeSince(old(trace), old(m.possible));
      fate := Tick();
      if !fate.Proceeds? {
        return;
      }
      Do(SyncGenerations(m));
      fate := Tick();
    }

    /** Writes one file of the stage; its contents and the stage's entries are not on the medium yet. */
    method WriteFile(k: StageId, f: File, content: Text, manifest: Option<Manifest>)
      requires Settled(or, m) && Staging(k) in m.nodes
      modifies this`m, this`trace
      ensures OnlyStage(k) && m.nodes[Staging(k)] == WithFile(old(m.nodes)[Staging(k)], f, content, manifest)
    {
      Do(OnNode(m, Staging(k), WithFile(m.nodes[Staging(k)], f, content, manifest)));
    }

    method SyncFile(k: StageId, f: File)
      requires Settled(or, m) && Staging(k) in m.nodes
      modifies this`m, this`trace
      ensures OnlyStage(k)
      ensures m.nodes[Staging(k)] == old(m.nodes)[Staging(k)].(synced := old(m.nodes)[Staging(k)].synced + {f})
    {
      var node := m.nodes[Staging(k)];
      Do(OnNode(m, Staging(k), node.(synced := node.synced + {f})));
    }

    /** The copying loop of `_download`: chunk by chunk, never past the announced size. */
    method CopyBody(k: StageId, f: File, announced: nat, chunks: seq<Text>) returns (fate: Fate)
      requires Settled(or, m) && Staging(k) in m.nodes
      modifies this
      ensures OnlyStage(k)
      ensures exists n: nat | n <= |chunks| ::
                && m.nodes[Staging(k)] == WithFile(old(m.nodes)[Staging(k)], f, Joined(chunks[..n]), None)
                && |Joined(chunks[..n])| <= announced && (fate.Proceeds? ==> n == |chunks|)
      ensures old(next) <= next
      ensures fate.Proceeds? <==> |Joined(chunks)| <= announced && Proceeding(old(next), next)
    {
      var body: Text := [];
      WriteFile(k, f, body, None);
      assert m.nodes[Staging(k)] == WithFile(old(m.nodes)[Staging(k)], f, Joined(chunks[..0]), None);
      for i := 0 to |chunks|
        invariant OnlyStage(k)
        invariant body == Joined(chunks[..i]) && |body| <= announced
        invariant old(next) <= next && Proceeding(old(next), next)
        invariant m.nodes[Staging(k)] == WithFile(old(m.nodes)[Staging(k)], f, body, None)
      {
        fate := Tick();
        if !fate.Proceeds? {
          return;
        }
        assert chunks[..i + 1][..i] == chunks[..i];
        if |body| + |chunks[i]| > announced {
          JoinedGrows(chunks, i + 1);
          return Throws;
        }
        body := body + chunks[i];
        WriteFile(k, f, body, None);
      }
      assert chunks[..|chunks|] == chunks;
      fate := Tick();
    }

    /** `_download`: succeeds only with a body of exactly the announced size, within the limit, fsynced. */
    method Download(k: StageId, f: File, announced: int, limit: nat, chunks: seq<Text>) returns (fate: Fate)
      requires Settled(or, m) && Staging(k) in m.nodes
      modifies this
      ensures OnlyStage(k)
      ensures fate.Proceeds? ==>
                && |Joined(chunks)| == announced <= limit
                && var node := WithFile(old(m.nodes)[Staging(k)], f, Joined(chunks), None);
                   m.nodes[Staging(k)] == node.(synced := node.synced + {f})
      ensures old(next) <= next
      ensures fate.Proceeds? <==> Fits(chunks, announced, limit) && Proceeding(old(next), next)
    {
      fate := Tick();
      if !fate.Proceeds? {
        return;
      }
      if announced < 0 || announced > limit {
        return Throws;
      }
      fate := CopyBody(k, f, announced, chunks);
      if !fate.Proceeds? {
        return;
      }
      assert chunks[..|chunks|] == chunks;
      if |Joined(chunks)| != announced {
        return Throws;
      }
      SyncFile(k, f);
      fate := Tick();
    }

    /** Writes and fsyncs the manifest as the last file, and then fsyncs the stage's entries. */
    method SealStage(k: StageId, manifest: Manifest) returns (fate: Fate)
      requires Settled(or, m) && Staging(k) in m.nodes
      requires m.nodes[Staging(k)].synced == {ModelFile, ThresholdsFile}
      modifies this
      ensures OnlyStage(k)
      ensures fate.Proceeds? ==>
                && m.nodes[Staging(k)].Durable()
                && m.nodes[Staging(k)].dir == old(m.nodes)[Staging(k)].dir.(manifest := Some(manifest))
      ensures old(next) <= next
      ensures fate.Proceeds? <==> Proceeding(old(next), next)
    {
      WriteFile(k, ManifestFile, [], Some(manifest));
      fate := Tick();
      if !fate.Proceeds? {
        return;
      }
      SyncFile(k, ManifestFile);
      fate := Tick();
      if !fate.Proceeds? {
        return;
      }
      Do(OnNode(m, Staging(k), m.nodes[Staging(k)].(listed := true)));
      fate := Tick();
    }

    /** `_validate_stage`: a stage that loads gets the manifest of its files, and its id. */
    method ValidateStage(k: StageId) returns (fate: Fate, g: GenerationId)
      requires Settled(or, m) && Staging(k) in m.nodes
      requires m.nodes[Staging(k)].dir.model.Some? && m.nodes[Staging(k)].dir.thresholds.Some?
      requires m.nodes[Staging(k)].synced == {ModelFile, ThresholdsFile}
      modifies this
      ensures OnlyStage(k)
      ensures fate.Proceeds? ==> m.nodes[Staging(k)].Durable() && Agrees(or, m.nodes[Staging(k)].dir, g)
      ensures fate.Proceeds? ==>
                g == Manifested(or, old(m.nodes)[Staging(k)].dir.model.value,
                                old(m.nodes)[Staging(k)].dir.thresholds.value).generation
      ensures fate.Proceeds? ==> Loads(or, m.nodes[Staging(k)].dir)
      ensures old(next) <= next
      ensures fate.Proceeds? <==> Loads(or, old(m.nodes)[Staging(k)].dir) && Proceeding(old(next), next)
    {
      g := 0;
      var dir := m.nodes[Staging(k)].dir;
      fate := Tick();
      if !fate.Proceeds? {
        return;
      }
      if !or.loads(dir.model.value, dir.thresholds.value) {
        return Throws, g;
      }
      var manifest := Manifested(or, dir.model.value, dir.thresholds.value);
      g := manifest.generation;
      fate := SealStage(k, manifest);
    }

    /** `_promote_prepared`: a name that already exists is not fsynced again. */
    method Promote(k: StageId, g: GenerationId) returns (fate: Fate)
      requires Settled(or, m) && m.synced == m.nodes.Keys
      requires Staging(k) in m.nodes && m.nodes[Staging(k)].Durable() && Agrees(or, m.nodes[Staging(k)].dir, g)
      modifies this
      ensures Settled(or, m) && SafeSince(old(trace), old(m.possible))
      ensures m == old(m).(nodes := m.nodes, synced := m.synced)
      ensures fate.Proceeds? ==> Generation(g) in m.nodes && Generation(g) in m.synced
      ensures fate.Proceeds? ==>
                m.nodes[Generation(g)] ==
                old(if Generation(g) in m.nodes then m.nodes[Generation(g)] else m.nodes[Staging(k)])
      ensures old(next) <= next
      ensures fate.Proceeds? <==> Proceeding(old(next), next)
    {
      fate := Tick();
      if fate.Proceeds? && Generation(g) !in m.nodes {
        Do(Rename(m, Staging(k), Generation(g)));
        fate := Tick();
        if fate.Proceeds? {
          Do(SyncGenerations(m));
          fate := Tick();
        }
      }
    }

    /** `_commit_pointer`: the temporary file is complete before it replaces the pointer. */
    method CommitPointer(p: Pointer) returns (fate: Fate)
      requires Settled(or, m)
      requires Generation(p.generation) in m.nodes && Generation(p.generation) in m.synced
      requires Agrees(or, m.nodes[Generation(p.generation)].dir, p.generation)
      modifies this
      ensures old(trace) <= trace && m.nodes == old(m.nodes) && m.synced == old(m.synced)
      ensures old(m.generationsSynced) ==>
                Settled(or, m) && m.generationsSynced && SafeSince(old(trace), old(m.possible) + {Some(p)})
      ensures !old(m.generationsSynced) && fate.Proceeds? ==> ExposedSince(old(trace))
      ensures m.possible <= old(m.possible) + {Some(p)}
      ensures fate.Proceeds? ==> m.pointer == Some(p) && m.possible == {Some(p)}
      ensures old(next) <= next
      ensures fate.Proceeds? <==> Proceeding(old(next), next)
    {
      fate := Tick();
      if !fate.Proceeds? {
        return;
      }
      ReplaceIsSafeExactlyWhen(or, m, p);
      Do(ReplacePointer(m, p));
      ghost var replaced := m;
      fate := Tick();
      if !fate.Proceeds? {
        return;
      }
      Do(SyncRoot(m));
      assert trace[|old(trace)|] == replaced;
      fate := Tick();
    }

    /** `_discard_stage` */
    method DiscardStage(k: StageId) returns (fate: Fate)
      modifies this
      ensures old(trace) <= trace
      ensures old(Settled(or, m)) ==> Settled(or, m) && SafeSince(old(trace), old(m.possible))
      ensures m == old(m).(nodes := m.nodes, synced := m.synced)
      ensures m.nodes == old(m.nodes) || m.nodes == old(m.nodes) - {Staging(k)}
      ensures fate.Proceeds? ==> m.nodes == old(m.nodes) - {Staging(k)} && m.synced == m.nodes.Keys
      ensures old(next) <= next
      ensures fate.Proceeds? <==> Proceeding(old(next), next)
    {
      fate := Tick();
      if !fate.Proceeds? {
        return;
      }
      Do(Remove(m, Staging(k)));
      fate := Tick();
      if !fate.Proceeds? {
        return;
      }
      Do(SyncGenerations(m));
    }

    /** `_prepare_download_stage` behind the new stage: both bodies, checked and described. */
    method PrepareDownload(k: StageId, model: seq<Text>, thresholds: seq<Text>, announced: (int, int), limits: (nat, nat))
      returns (fate: Fate, g: GenerationId)
      requires Settled(or, m) && Staging(k) in m.nodes && m.nodes[Staging(k)].synced == {}
      modifies this
      ensures OnlyStage(k)
      ensures fate.Proceeds? ==>
                && g == Manifested(or, Joined(model), Joined(thresholds)).generation
                && m.nodes[Staging(k)].Durable() && Agrees(or, m.nodes[Staging(k)].dir, g)
                && Loads(or, m.nodes[Staging(k)].dir)
      ensures old(next) <= next
      ensures fate.Proceeds? <==>
              && Fits(model, announced.0, limits.0) && Fits(thresholds, announced.1, limits.1)
              && or.loads(Joined(model), Joined(thresholds)) && Proceeding(old(next), next)
    {
      g := 0;
      fate := Download(k, ModelFile, announced.0, limits.0, model);
      if !fate.Proceeds? {
        return;
      }
      fate := Download(k, ThresholdsFile, announced.1, limits.1, thresholds);
      if !fate.Proceeds? {
        return;
      }
      assert m.nodes[Staging(k)].synced == {ModelFile, ThresholdsFile};
      fate, g := ValidateStage(k);
    }

    /** `_publish_prepared`: the promotion, the load of the generation under its name, and the commit under the lock. */
    method PublishPrepared(k: StageId, g: GenerationId, remote: ETags) returns (fate: Fate)
      requires Settled(or, m) && m.hasGenerations && m.hasLock && m.synced == m.nodes.Keys
      requires Staging(k) in m.nodes && m.nodes[Staging(k)].Durable() && Agrees(or, m.nodes[Staging(k)].dir, g)
      requires Loads(or, m.nodes[Staging(k)].dir)
      modifies this
      ensures old(trace) <= trace
      ensures var p := Pointer(g, remote);
              && (old(m.generationsSynced) ==>
                    Settled(or, m) && m.generationsSynced && SafeSince(old(trace), old(m.possible) + {Some(p)}))
              && m.possible <= old(m.possible) + {Some(p)}
              && (fate.Proceeds? ==>
                    && m.pointer == Some(p) && m.possible == {Some(p)}
                    && Generation(g) in m.nodes && Agrees(or, m.nodes[Generation(g)].dir, g))
      ensures !old(m.generationsSynced) && fate.Proceeds? ==> ExposedSince(old(trace))
      ensures old(next) <= next
      ensures fate.Proceeds? <==> Accepts(or, old(m.nodes), g) && Proceeding(old(next), next)
    {
      fate := Promote(k, g);
      if !fate.Proceeds? {
        return;
      }
      if !Agrees(or, m.nodes[Generation(g)].dir, g) || !Loads(or, m.nodes[Generation(g)].dir) {
        return Throws;
      }
      fate := LockFile();
      if !fate.Proceeds? {
        return;
      }
      fate := CommitPointer(Pointer(g, remote));
    }

    /**
     `_bootstrap` and the installing part of `refresh`, after a first look at the pointer. From an anchored root,
     power loss at any step leaves the pointer found at the start or the new one, and a generation that it names;
     from any other root, every call that completes passes through a state where it would not.
     */
    method Install(k: StageId, model: seq<Text>, thresholds: seq<Text>, announced: (int, int),
        limits: (nat, nat), remote: ETags)
      returns (fate: Fate)
      requires Settled(or, m)
      modifies this
      ensures old(trace) <= trace
      ensures var p := NewPointer(or, model, thresholds, remote);
              && (old(Anchored(m)) ==> Settled(or, m) && SafeSince(old(trace), old(m.possible) + {Some(p)}))
              && m.possible <= old(m.possible) + {Some(p)}
              && (fate.Proceeds? ==> m.pointer == Some(p) && m.possible == {Some(p)})
      ensures !old(Anchored(m)) && fate.Proceeds? ==> ExposedSince(old(trace))
      ensures old(m.generationsSynced) || (old(Anchored(m)) && fate.Proceeds?) ==> m.generationsSynced
      ensures var locked := old(next) + LockTicks(old(m), fates, old(next));
              !FateAt(fates, locked - 1).Proceeds? ==>
                m == LockedBy(old(m), fates, old(next)) && fate == FateAt(fates, locked - 1) && next == locked
      ensures old(next) <= next
      ensures fate.Proceeds? <==>
              && Staging(k) !in old(m.nodes) && Publishable(or, old(m.nodes), model, thresholds, announced, limits)
              && Proceeding(old(next), next)
      ensures fate.Proceeds? ==> Staging(k) !in m.nodes
    {
      hide PowerSafe, Agrees, Loads, Joined, LockTicks, LockedBy, Manifested;
      fate := LockFile();
      if !fate.Proceeds? {
        return;
      }
      ghost var found := m.nodes;
      fate := NewStage(k);
      if !fate.Proceeds? {
        return;
      }
      var g;
      fate, g := PrepareDownload(k, model, thresholds, announced, limits);
      if fate.Proceeds? {
        AcceptsWhateverIsStaged(or, found, m.nodes, k, g);
        fate := PublishPrepared(k, g, remote);
      }
      if !fate.Dies? && Staging(k) in m.nodes {
        var discarded := DiscardStage(k);
        if !discarded.Proceeds? {
          fate := discarded;
        }
      }
    }

    /** Power is lost now. */
    method LosePower(after: Medium)
      requires Settled(or, m) && SurvivesAs(m, after)
      modifies this`m, this`trace
      ensures m == after && Settled(or, m) && Anchored(m) && SafeSince(old(trace), old(m.possible))
      ensures m.possible <= old(m.possible) && (old(m.generationsSynced) ==> m.generationsSynced)
    {
      SurvivorIsSettled(or, m, after);
      Do(after);
    }

    /**
     Calls one after another on a root that is durable once, each failing or crashing anywhere and with a power loss
     behind any of them: every state in between is power safe, and the pointer file it would leave is the one from
     the start or that of one of the calls.
     */
    method InstallAll(calls: seq<Installation>)
      requires Settled(or, m) && m.generationsSynced
      modifies this
      ensures Settled(or, m) && m.generationsSynced
      ensures SafeSince(old(trace), old(m.possible) + NewPointers(or, calls))
    {
      for i := 0 to |calls|
        invariant Settled(or, m) && m.generationsSynced
        invariant m.possible <= old(m.possible) + NewPointers(or, calls)
        invariant SafeSince(old(trace), old(m.possible) + NewPointers(or, calls))
      {
        var c := calls[i];
        assert c in calls;
        var fate := Install(c.k, c.model, c.thresholds, c.announced, c.limits, c.remote);
        if c.left.Some? && SurvivesAs(m, c.left.value) {
          LosePower(c.left.value);
        }
      }
    }
  }

  // ---------- runs, and when the guarantee holds ----------

  /** Replacing the pointer is power safe exactly when the generation's entry and `generations` itself are on the medium. */
  lemma {:induction false} ReplaceIsSafeExactlyWhen(or: Oracle, m: Medium, p: Pointer)
    requires Settled(or, m) && Generation(p.generation) in m.nodes
    requires Agrees(or, m.nodes[Generation(p.generation)].dir, p.generation)
    ensures PowerSafe(or, ReplacePointer(m, p)) <==> m.generationsSynced && Generation(p.generation) in m.synced
  {
    assert Some(p) in ReplacePointer(m, p).possible;
  }

  const BLANK := Medium(false, false, false, map[], {}, None, {None})

  /** The first call fails behind creating `generations`, the second behind creating the lock file. */
  const MISSED: seq<Fate> := [Proceeds, Throws, Proceeds, Proceeds, Throws]

  /** Two calls that fail between creating an entry in the root and fsyncing it leave a root that is not anchored. */
  method FailuresCanUnanchor(or: Oracle, a: Installation, b: Installation)
    returns (first: Fate, second: Fate, m: Medium)
    ensures Settled(or, BLANK) && Anchored(BLANK) && first == Throws && second == Throws
    ensures Settled(or, m) && !Anchored(m)
  {
    assert PowerSafe(or, BLANK);
    var disk := new Disk(or, BLANK, MISSED);
    first := disk.Install(a.k, a.model, a.thresholds, a.announced, a.limits, a.remote);
    assert disk.m == MakeGenerations(BLANK) && disk.next == 2;
    assert PowerSafe(or, disk.m);
    second := disk.Install(b.k, b.model, b.thresholds, b.announced, b.limits, b.remote);
    m := disk.m;
    assert m == MakeLock(MakeGenerations(BLANK));
  }

  /**
   Overlapping calls lose the guarantee: one stage is made and fsynced, another call renames the same
   generation into place, and the first one takes the branch that skips the fsync and replaces the pointer.
   */
  lemma OverlapCanLoseTheGeneration(or: Oracle, m: Medium, mine: StageId, theirs: StageId, dir: Dir, p: Pointer)
    requires Settled(or, m) && m.generationsSynced && Generation(p.generation) !in m.nodes && mine != theirs
    requires Staging(theirs) in m.nodes && m.nodes[Staging(theirs)] == Node(dir, FILES, true)
    requires Agrees(or, dir, p.generation)
    ensures var staged := SyncGenerations(MakeDirectory(m, Staging(mine)));
            var renamed := Rename(staged, Staging(theirs), Generation(p.generation));
            && Settled(or, renamed) && Generation(p.generation) in renamed.nodes
            && !PowerSafe(or, ReplacePointer(renamed, p))
  {
    var staged := SyncGenerations(MakeDirectory(m, Staging(mine)));
    var renamed := Rename(staged, Staging(theirs), Generation(p.generation));
    assert Some(p) in ReplacePointer(renamed, p).possible;
  }
}
