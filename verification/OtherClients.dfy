/** What a client can rely on while others act between two of its requests: any number of pushes, aborts,
    collections, repairs, lifecycle runs and operator commands, in any order. */
module OtherClients {
  import opened Common
  import opened ObjectLayouts
  import opened Tables
  import opened Evolution
  import opened ControlPlane
  import opened Runs
  import opened OpenWork

  type Replica = (ChunkId, NodeId)

  predicate IsDowngrade(e: Event) {
    e.Catalog? && e.change.RegisterLocation? && !e.change.locationState.Available?
  }

  /** The replicas that clients declared missing or corrupt. */
  function DowngradedBy(events: seq<Event>): set<Replica> {
    set k | 0 <= k < |events| && IsDowngrade(events[k]) :: (events[k].change.chunkId, events[k].change.node)
  }

  /** What is stored for an active version stays stored. */
  ghost predicate ReplicasPersist(w: World, later: World) {
    forall v, l, c, n | && v in w.db.versions && v !in later.db.retired && l in w.db.layouts
                        && w.db.layouts[l].objectId == w.db.versions[v].key.rootObjectId
                        && HasChunk(w.db.layouts[l], c) && (n, c) in w.disk :: (n, c) in later.disk
  }

  ghost predicate StillOpen(w: World, later: World, work: Work) {
    Known(w.db, work) && WorkOpen(later.db, work)
  }

  /** The replicas that are available stay so while a run or session is open, except where downgraded. */
  ghost predicate AvailabilityPersists(w: World, later: World, downgraded: set<Replica>) {
    forall work, c, n | StillOpen(w, later, work) && IsAvailable(w.db, c, n) && (c, n) !in downgraded :: IsAvailable(later.db, c, n)
  }

  /** The world after other clients have acted, having downgraded no replica but these. */
  ghost predicate Acted(w: World, later: World, downgraded: set<Replica>) {
    && later.db.hashing == w.db.hashing
    && SessionsEvolve(w.db.sessions, later.db.sessions)
    && VersionsEvolve(w.db.versions, later.db.versions)
    && w.db.retired <= later.db.retired
    && LayoutsPersist(w.db.versions, w.db.layouts, later.db.retired, later.db.layouts)
    && ReplicationsEvolve(w.db.replicationRuns, later.db.replicationRuns)
    && w.confirmed <= later.confirmed
    && ReplicasPersist(w, later)
    && (forall work | StillOpen(w, later, work) :: Held(w, later))
    && AvailabilityPersists(w, later, downgraded)
  }

  lemma UploadKeepsConfirmed(w: World, e: UploadEvent)
    ensures w.confirmed <= UploadStep(w, e).confirmed
  {
  }

  lemma StepKeepsConfirmed(w: World, e: Event)
    ensures w.confirmed <= Step(w, e).confirmed
  {
    if e.Upload? {
      UploadKeepsConfirmed(w, e.upload);
    }
  }

  lemma {:induction false} ConfirmationsAreKept(w: World, events: seq<Event>)
    ensures w.confirmed <= Exec(w, events).confirmed
  {
    if events != [] {
      ConfirmationsAreKept(w, events[..|events| - 1]);
      StepKeepsConfirmed(Exec(w, events[..|events| - 1]), events[|events| - 1]);
    }
  }

  lemma ExecReplicasPersist(w: World, events: seq<Event>)
    requires Inv(w)
    ensures ReplicasPersist(w, Exec(w, events))
  {
    forall v, l, c, n | && v in w.db.versions && v !in Exec(w, events).db.retired && l in w.db.layouts
                        && w.db.layouts[l].objectId == w.db.versions[v].key.rootObjectId
                        && HasChunk(w.db.layouts[l], c) && (n, c) in w.disk
      ensures (n, c) in Exec(w, events).disk
    {
      ReplicasOfActiveVersionsStay(w, events, v, l, c, n);
    }
  }

  lemma NotDowngraded(events: seq<Event>, c: ChunkId, n: NodeId)
    requires (c, n) !in DowngradedBy(events)
    ensures Undisturbed(events, c, n)
  {
    assert forall k | 0 <= k < |events| && IsDowngrade(events[k]) ::
        (events[k].change.chunkId, events[k].change.node) in DowngradedBy(events);
  }

  lemma ExecAvailabilityPersists(w: World, events: seq<Event>)
    requires Inv(w)
    ensures AvailabilityPersists(w, Exec(w, events), DowngradedBy(events))
  {
    forall work, c, n | StillOpen(w, Exec(w, events), work) && IsAvailable(w.db, c, n) && (c, n) !in DowngradedBy(events)
      ensures IsAvailable(Exec(w, events).db, c, n)
    {
      NotDowngraded(events, c, n);
      AvailabilityHolds(w, events, work, c, n);
    }
  }

  lemma ExecHolds(w: World, events: seq<Event>)
    requires Inv(w)
    ensures forall work | StillOpen(w, Exec(w, events), work) :: Held(w, Exec(w, events))
  {
    forall work | StillOpen(w, Exec(w, events), work)
      ensures Held(w, Exec(w, events))
    {
      OpenWorkIsUndisturbed(w, events, work);
    }
  }

  lemma ActedFrom(w: World, later: World, downgraded: set<Replica>)
    requires Remembers(w, later) && w.confirmed <= later.confirmed && ReplicasPersist(w, later)
    requires forall work | StillOpen(w, later, work) :: Held(w, later)
    requires AvailabilityPersists(w, later, downgraded)
    ensures Acted(w, later, downgraded)
  {
  }

  /** Every sequence of events keeps the invariant and what a client relies on. */
  lemma ClientsAct(w: World, events: seq<Event>)
    requires Inv(w)
    ensures Inv(Exec(w, events)) && Acted(w, Exec(w, events), DowngradedBy(events))
  {
    ExecKeepsInv(w, events);
    ExecRemembers(w, events);
    ConfirmationsAreKept(w, events);
    ExecReplicasPersist(w, events);
    ExecAvailabilityPersists(w, events);
    ExecHolds(w, events);
    ActedFrom(w, Exec(w, events), DowngradedBy(events));
  }

  /** A client's own step is no exception. */
  lemma ClientActs(w: World, e: Event, downgraded: set<Replica>)
    requires Inv(w) && !IsDowngrade(e)
    ensures Inv(Step(w, e)) && Acted(w, Step(w, e), downgraded)
  {
    ClientsAct(w, [e]);
    ExecOne(w, e);
    NoDowngrade(e);
    MoreDowngraded(w, Exec(w, [e]), {}, downgraded);
  }

  lemma NoDowngrade(e: Event)
    requires !IsDowngrade(e)
    ensures DowngradedBy([e]) == {}
  {
  }

  lemma NothingActed(w: World, downgraded: set<Replica>)
    ensures Acted(w, w, downgraded)
  {
  }

  lemma StillOpenBefore(w: World, mid: World, later: World, work: Work)
    requires SessionsEvolve(w.db.sessions, mid.db.sessions) && SessionsEvolve(mid.db.sessions, later.db.sessions)
    requires ReplicationsEvolve(w.db.replicationRuns, mid.db.replicationRuns)
    requires ReplicationsEvolve(mid.db.replicationRuns, later.db.replicationRuns)
    requires StillOpen(w, later, work)
    ensures StillOpen(w, mid, work) && StillOpen(mid, later, work)
  {
  }

  lemma LayoutStaysBetween(w: World, mid: World, later: World, v: VersionId, l: LayoutId)
    requires VersionsEvolve(w.db.versions, mid.db.versions) && mid.db.retired <= later.db.retired
    requires LayoutsPersist(w.db.versions, w.db.layouts, mid.db.retired, mid.db.layouts)
    requires v in w.db.versions && v !in later.db.retired && l in w.db.layouts
    requires w.db.layouts[l].objectId == w.db.versions[v].key.rootObjectId
    ensures v in mid.db.versions && v !in mid.db.retired && mid.db.versions[v] == w.db.versions[v]
    ensures l in mid.db.layouts && mid.db.layouts[l] == w.db.layouts[l]
  {
    assert ObjectInUse(w.db.versions, mid.db.retired, w.db.layouts[l].objectId);
  }

  lemma ReplicasPersistLonger(w: World, mid: World, later: World)
    requires VersionsEvolve(w.db.versions, mid.db.versions) && mid.db.retired <= later.db.retired
    requires LayoutsPersist(w.db.versions, w.db.layouts, mid.db.retired, mid.db.layouts)
    requires ReplicasPersist(w, mid) && ReplicasPersist(mid, later)
    ensures ReplicasPersist(w, later)
  {
    forall v, l, c, n | && v in w.db.versions && v !in later.db.retired && l in w.db.layouts
                        && w.db.layouts[l].objectId == w.db.versions[v].key.rootObjectId
                        && HasChunk(w.db.layouts[l], c) && (n, c) in w.disk
      ensures (n, c) in later.disk
    {
      LayoutStaysBetween(w, mid, later, v, l);
    }
  }

  lemma LayoutsPersistLonger(w: World, mid: World, later: World)
    requires VersionsEvolve(w.db.versions, mid.db.versions) && mid.db.retired <= later.db.retired
    requires LayoutsPersist(w.db.versions, w.db.layouts, mid.db.retired, mid.db.layouts)
    requires LayoutsPersist(mid.db.versions, mid.db.layouts, later.db.retired, later.db.layouts)
    ensures LayoutsPersist(w.db.versions, w.db.layouts, later.db.retired, later.db.layouts)
  {
    forall l | l in w.db.layouts && ObjectInUse(w.db.versions, later.db.retired, w.db.layouts[l].objectId)
      ensures l in later.db.layouts && later.db.layouts[l] == w.db.layouts[l]
    {
      var v :| v in w.db.versions && v !in later.db.retired && w.db.versions[v].key.rootObjectId == w.db.layouts[l].objectId;
      LayoutStaysBetween(w, mid, later, v, l);
      assert ObjectInUse(mid.db.versions, later.db.retired, mid.db.layouts[l].objectId);
    }
  }

  /** What clients do in two turns they could do in one. */
  lemma ActedLonger(w: World, mid: World, later: World, before: set<Replica>, downgraded: set<Replica>)
    requires Acted(w, mid, before) && Acted(mid, later, downgraded) && before <= downgraded
    ensures Acted(w, later, downgraded)
  {
    ReplicasPersistLonger(w, mid, later);
    LayoutsPersistLonger(w, mid, later);
    forall work | StillOpen(w, later, work)
      ensures Held(w, later)
    {
      StillOpenBefore(w, mid, later, work);
      HeldLonger(w, mid, later);
    }
    forall work, c, n | StillOpen(w, later, work) && IsAvailable(w.db, c, n) && (c, n) !in downgraded
      ensures IsAvailable(later.db, c, n)
    {
      StillOpenBefore(w, mid, later, work);
      assert IsAvailable(mid.db, c, n);
    }
  }

  lemma MoreDowngraded(w: World, later: World, downgraded: set<Replica>, more: set<Replica>)
    requires Acted(w, later, downgraded) && downgraded <= more
    ensures Acted(w, later, more)
  {
  }

  // ---------------------------------------------------------------------------------------------
  // What a client has registered
  // ---------------------------------------------------------------------------------------------

  /** The replica is registered, unless the run or session has been closed or somebody has declared it bad. */
  ghost predicate StillListed(work: Work, w: World, downgraded: set<Replica>, c: ChunkId, n: NodeId) {
    WorkOpen(w.db, work) && (c, n) !in downgraded ==> IsAvailable(w.db, c, n)
  }

  lemma ListedStays(work: Work, w: World, later: World, before: set<Replica>, downgraded: set<Replica>, c: ChunkId, n: NodeId)
    requires Known(w.db, work) && Acted(w, later, downgraded) && before <= downgraded
    requires StillListed(work, w, before, c, n)
    ensures StillListed(work, later, downgraded, c, n)
  {
    if WorkOpen(later.db, work) && (c, n) !in downgraded {
      assert StillOpen(w, later, work);
      assert AvailabilityPersists(w, later, downgraded);
      OpenBeforeToo(w, later, downgraded, work);
    }
  }

  lemma OpenBeforeToo(w: World, later: World, downgraded: set<Replica>, work: Work)
    requires Acted(w, later, downgraded) && StillOpen(w, later, work)
    ensures WorkOpen(w.db, work)
  {
  }

  ghost predicate AllListed(work: Work, w: World, downgraded: set<Replica>, c: ChunkId, nodes: seq<NodeId>) {
    forall i | 0 <= i < |nodes| :: StillListed(work, w, downgraded, c, nodes[i])
  }

  lemma AllListedStay(work: Work, w: World, later: World, before: set<Replica>, downgraded: set<Replica>, c: ChunkId, nodes: seq<NodeId>)
    requires Known(w.db, work) && Acted(w, later, downgraded) && before <= downgraded
    requires AllListed(work, w, before, c, nodes)
    ensures AllListed(work, later, downgraded, c, nodes)
  {
    forall i | 0 <= i < |nodes|
      ensures StillListed(work, later, downgraded, c, nodes[i])
    {
      ListedStays(work, w, later, before, downgraded, c, nodes[i]);
    }
  }
}
