/** The retention policy evaluated by `run_lifecycle`
    (src/metadata/postgres_metadata_repository.cpp, src/metadata/lifecycle.cpp). Times are
    real numbers; the source's floating-point rounding is not modelled. */
module Lifecycle {
  import opened Common
  import opened Ordering

  datatype ArtifactKind = Generic | ModelCheckpoint | DatasetSnapshot | EmbeddingIndex | EvaluationOutput

  function KindName(kind: ArtifactKind): string {
    match kind
    case Generic => "generic"
    case ModelCheckpoint => "model-checkpoint"
    case DatasetSnapshot => "dataset-snapshot"
    case EmbeddingIndex => "embedding-index"
    case EvaluationOutput => "evaluation-output"
  }

  const KIND_METADATA_KEY := "aistore.artifact_kind"

  /** No metadata means generic; an unknown value is an error. */
  function ResolveKind(metadata: map<string, string>): Option<ArtifactKind> {
    if KIND_METADATA_KEY !in metadata then Some(Generic)
    else
      var name := metadata[KIND_METADATA_KEY];
      if name == "generic" then Some(Generic)
      else if name == "model-checkpoint" then Some(ModelCheckpoint)
      else if name == "dataset-snapshot" then Some(DatasetSnapshot)
      else if name == "embedding-index" then Some(EmbeddingIndex)
      else if name == "evaluation-output" then Some(EvaluationOutput)
      else None
  }

  datatype Rule = Rule(keepLastN: nat, maxAgeSeconds: Option<nat>)

  const MAX_KEEP_LAST_N := 1000
  const MAX_AGE_SECONDS := 315360000

  /** A policy has a rule for every kind. */
  datatype Policy = Policy(generic: Rule, modelCheckpoint: Rule, datasetSnapshot: Rule, embeddingIndex: Rule, evaluationOutput: Rule) {
    function RuleFor(kind: ArtifactKind): Rule {
      match kind
      case Generic => generic
      case ModelCheckpoint => modelCheckpoint
      case DatasetSnapshot => datasetSnapshot
      case EmbeddingIndex => embeddingIndex
      case EvaluationOutput => evaluationOutput
    }
  }

  predicate ValidRule(rule: Rule) {
    rule.keepLastN <= MAX_KEEP_LAST_N && (rule.maxAgeSeconds.Some? ==> rule.maxAgeSeconds.value <= MAX_AGE_SECONDS)
  }

  predicate ValidPolicy(policy: Policy) {
    forall kind: ArtifactKind :: ValidRule(policy.RuleFor(kind))
  }

  datatype Candidate = Candidate(versionId: VersionId, artifactId: ArtifactId, kind: ArtifactKind, createdAt: real,
                                 size: nat, pinned: bool, tagged: bool, manifestReferenced: bool)

  datatype Reason = Pinned | Tagged | ManifestReferenced | KeepLastN | AgeNotReached | PolicyRetire

  /** Which rule applies: that of the named kind, and the generic one if no kind is named. */
  lemma RuleByName(policy: Policy, metadata: map<string, string>)
    ensures KIND_METADATA_KEY !in metadata ==> ResolveKind(metadata) == Some(Generic)
    ensures forall kind: ArtifactKind ::
              KIND_METADATA_KEY in metadata && metadata[KIND_METADATA_KEY] == KindName(kind) ==> ResolveKind(metadata) == Some(kind)
    ensures KIND_METADATA_KEY in metadata && (forall kind: ArtifactKind :: metadata[KIND_METADATA_KEY] != KindName(kind)) ==>
              ResolveKind(metadata) == None
    ensures policy == Policy(policy.RuleFor(Generic), policy.RuleFor(ModelCheckpoint), policy.RuleFor(DatasetSnapshot),
                             policy.RuleFor(EmbeddingIndex), policy.RuleFor(EvaluationOutput))
  {
    forall a: ArtifactKind, b: ArtifactKind | KindName(a) == KindName(b)
      ensures a == b
    {
      KindNamesDiffer(a, b);
    }
    assert KindName(Generic) == "generic" && KindName(ModelCheckpoint) == "model-checkpoint" && KindName(DatasetSnapshot) == "dataset-snapshot";
    assert KindName(EmbeddingIndex) == "embedding-index" && KindName(EvaluationOutput) == "evaluation-output";
  }

  predicate SamePartition(u: Candidate, v: Candidate) {
    u.artifactId == v.artifactId && u.kind == v.kind
  }

  /** Newest first within an artifact and kind, version ID as the tie-break. */
  predicate Before(u: Candidate, v: Candidate) {
    if u.artifactId != v.artifactId then LexLess(u.artifactId, v.artifactId)
    else if u.kind != v.kind then LexLess(KindName(u.kind), KindName(v.kind))
    else if u.createdAt != v.createdAt then u.createdAt > v.createdAt
    else LexLess(u.versionId, v.versionId)
  }

  ghost predicate DistinctVersions(s: set<Candidate>) {
    forall u, v | u in s && v in s :: u.versionId == v.versionId ==> u == v
  }

  /** The versions of the same artifact and kind that are ranked before `v`. */
  function Ahead(s: set<Candidate>, v: Candidate): set<Candidate> {
    set u | u in s && SamePartition(u, v) && Before(u, v)
  }

  function Rank(s: set<Candidate>, v: Candidate): nat {
    1 + |Ahead(s, v)|
  }

  function Decide(policy: Policy, now: real, v: Candidate, rank: nat): Reason {
    var rule := policy.RuleFor(v.kind);
    if v.pinned then Pinned
    else if v.tagged then Tagged
    else if v.manifestReferenced then ManifestReferenced
    else if rank <= rule.keepLastN then KeepLastN
    else if rule.maxAgeSeconds.Some? && now - v.createdAt < rule.maxAgeSeconds.value as real then AgeNotReached
    else PolicyRetire
  }

  /** The versions a run at time `now` selects for retirement. */
  function RetireSet(policy: Policy, now: real, s: set<Candidate>): set<Candidate> {
    set v | v in s && Decide(policy, now, v, Rank(s, v)) == PolicyRetire
  }

  lemma KindNamesDiffer(a: ArtifactKind, b: ArtifactKind)
    ensures KindName(a) == KindName(b) ==> a == b
  {
    assert |KindName(Generic)| == 7 && |KindName(EmbeddingIndex)| == 15;
    assert |KindName(ModelCheckpoint)| == 16 && KindName(ModelCheckpoint)[0] == 'm';
    assert |KindName(DatasetSnapshot)| == 16 && KindName(DatasetSnapshot)[0] == 'd';
    assert |KindName(EvaluationOutput)| == 17;
  }

  lemma BeforeIrreflexive(u: Candidate)
    ensures !Before(u, u)
  {
    LexTotal(u.versionId, u.versionId);
  }

  lemma BeforeTransitive(u: Candidate, v: Candidate, w: Candidate)
    requires Before(u, v) && Before(v, w)
    ensures Before(u, w)
  {
    LexStrictTotal();
    KindNamesDiffer(u.kind, v.kind);
    KindNamesDiffer(v.kind, w.kind);
    KindNamesDiffer(u.kind, w.kind);
  }

  lemma BeforeStrictOrder()
    ensures StrictOrder(Before)
  {
    forall u
      ensures !Before(u, u)
    {
      BeforeIrreflexive(u);
    }
    forall u, v, w | Before(u, v) && Before(v, w)
      ensures Before(u, w)
    {
      BeforeTransitive(u, v, w);
    }
  }

  lemma BeforeTotal(s: set<Candidate>)
    requires DistinctVersions(s)
    ensures TotalOn(Before, s)
  {
    forall u, v | u in s && v in s && u != v
      ensures Before(u, v) || Before(v, u)
    {
      LexTotal(u.artifactId, v.artifactId);
      LexTotal(KindName(u.kind), KindName(v.kind));
      KindNamesDiffer(u.kind, v.kind);
      LexTotal(u.versionId, v.versionId);
    }
  }

  // ---------------------------------------------------------------------------------------------
  // Retention
  // ---------------------------------------------------------------------------------------------

  /** If at least `n` versions are ahead of `v`, then at least `n` of them have rank at most `n`. */
  lemma {:induction false} TopRanked(s: set<Candidate>, v: Candidate, n: nat) returns (top: set<Candidate>)
    requires |Ahead(s, v)| >= n
    ensures top <= Ahead(s, v) && |top| >= n
    ensures forall u | u in top :: Rank(s, u) <= n
    decreases Ahead(s, v)
  {
    if u :| u in Ahead(s, v) && Rank(s, u) > n {
      forall w | w in Ahead(s, u)
        ensures w in Ahead(s, v)
      {
        BeforeTransitive(w, u, v);
      }
      BeforeIrreflexive(u);
      top := TopRanked(s, u, n);
    } else {
      top := Ahead(s, v);
    }
  }

  /** A retired version has at least `keep_last_n` versions of its artifact and kind ranked before it
      that the same run does not retire. */
  lemma RetentionGuarantee(policy: Policy, now: real, s: set<Candidate>, v: Candidate)
    requires v in RetireSet(policy, now, s)
    ensures !v.pinned && !v.tagged && !v.manifestReferenced
    ensures |Ahead(s, v) - RetireSet(policy, now, s)| >= policy.RuleFor(v.kind).keepLastN
  {
    var n := policy.RuleFor(v.kind).keepLastN;
    var top := TopRanked(s, v, n);
    var kept := Ahead(s, v) - RetireSet(policy, now, s);
    assert top <= kept;
    SubsetSize(top, kept);
  }

  /** The candidates of the same artifact and kind that are newer than `v`, or as old with a smaller ID. */
  function Newer(s: set<Candidate>, v: Candidate): set<Candidate> {
    set u | && u in s && u.artifactId == v.artifactId && u.kind == v.kind
            && (u.createdAt > v.createdAt || (u.createdAt == v.createdAt && LexLess(u.versionId, v.versionId)))
  }

  /** In terms of the rows alone: a candidate is retired if and only if nothing protects it, it has reached
      the maximum age if there is one, and `keep_last_n` candidates of its artifact and kind are newer. */
  lemma RetiredIff(policy: Policy, now: real, s: set<Candidate>, v: Candidate)
    requires v in s
    ensures var rule := policy.RuleFor(v.kind);
            v in RetireSet(policy, now, s) <==>
              && !v.pinned && !v.tagged && !v.manifestReferenced
              && (rule.maxAgeSeconds.Some? ==> now - v.createdAt >= rule.maxAgeSeconds.value as real)
              && |Newer(s, v)| >= rule.keepLastN
  {
    assert Newer(s, v) == Ahead(s, v);
  }

  /** A retired version has `keep_last_n` others of its artifact and kind that are at least as new and that
      the run keeps. */
  lemma NewestAreKept(policy: Policy, now: real, s: set<Candidate>, v: Candidate) returns (kept: set<Candidate>)
    requires v in RetireSet(policy, now, s)
    ensures kept <= s - RetireSet(policy, now, s) && |kept| >= policy.RuleFor(v.kind).keepLastN
    ensures forall u | u in kept :: u != v && u.artifactId == v.artifactId && u.kind == v.kind && u.createdAt >= v.createdAt
  {
    kept := Ahead(s, v) - RetireSet(policy, now, s);
    RetentionGuarantee(policy, now, s, v);
  }

  /** Retiring earlier versions does not change who is beyond the first `keep_last_n`. */
  lemma RankBeyondIsStable(policy: Policy, earlier: real, s: set<Candidate>, v: Candidate)
    requires v in s
    ensures var n := policy.RuleFor(v.kind).keepLastN;
            Rank(s - RetireSet(policy, earlier, s), v) <= n <==> Rank(s, v) <= n
  {
    var n := policy.RuleFor(v.kind).keepLastN;
    var rest := s - RetireSet(policy, earlier, s);
    assert Ahead(rest, v) <= Ahead(s, v);
    SubsetSize(Ahead(rest, v), Ahead(s, v));
    if Rank(s, v) > n {
      var top := TopRanked(s, v, n);
      assert top <= Ahead(rest, v);
      SubsetSize(top, Ahead(rest, v));
    }
  }

  /** Confluence: with no new versions in between, running early and again later retires exactly what
      running once, later, retires. */
  lemma EarlierRunIsAbsorbed(policy: Policy, earlier: real, later: real, s: set<Candidate>)
    requires earlier <= later
    ensures var first := RetireSet(policy, earlier, s);
            first + RetireSet(policy, later, s - first) == RetireSet(policy, later, s)
  {
    var first := RetireSet(policy, earlier, s);
    forall v | v in s
      ensures v in first + RetireSet(policy, later, s - first) <==> v in RetireSet(policy, later, s)
    {
      RankBeyondIsStable(policy, earlier, s, v);
    }
  }

  /** Applying the policy again at the same instant retires nothing. */
  lemma ReapplyRetiresNothing(policy: Policy, now: real, s: set<Candidate>)
    ensures RetireSet(policy, now, s - RetireSet(policy, now, s)) == {}
  {
    var first := RetireSet(policy, now, s);
    EarlierRunIsAbsorbed(policy, now, now, s);
    assert RetireSet(policy, now, s - first) !! first;
  }
}
