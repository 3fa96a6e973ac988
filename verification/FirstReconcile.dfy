/**
  When a single reconcile suffices: exactly when it generates nothing that validation has just missed.
*/
module FirstReconcile {
  import opened Consultation
  import opened Convergence
  import opened Generation
  import opened Normalisation
  import opened ObjectNames
  import opened Options
  import opened Plan
  import opened Resource
  import opened Store
  import opened Topology

  /**
    No lookup misses what is generated after it: API keys after the basic lookups, the ClickHouse password after the
    enterprise ones.
  */
  predicate MissesNothingGenerated(view: SecretView, cr: Request, spec: CorootSpec)
  {
    && (forall s | s in BasicConsulted(spec) :: Absence(view, {}, s) == Absence(view, GeneratedSelectors(cr, spec), s))
    && (forall s | s in EnterpriseConsulted(spec) ::
          Absence(view, ApiKeySelectors(spec), s) == Absence(view, GeneratedSelectors(cr, spec), s))
  }

  // ---- if no lookup misses what is generated, the outcome stays ----

  lemma OutcomeStays(op: Operator, cr: Request, spec: CorootSpec, c: Cluster, r1: Random, r2: Random)
    requires MissesNothingGenerated(SecretsOf(c.objects, cr.ns), cr, spec)
    ensures OutcomeAt(op, cr, spec, Reconciled(op, cr, spec, c, r1).objects, r2) == OutcomeAt(op, cr, spec, c.objects, r1)
  {
    var view, later := SecretsOf(c.objects, cr.ns), LaterView(cr, spec, c.objects, r1);
    var final := SecretsOf(Reconciled(op, cr, spec, c, r1).objects, cr.ns);
    var all := GeneratedSelectors(cr, spec);
    forall s | s in BasicConsulted(spec) ensures GetSecret(view, s) == GetSecret(final, s) {
      NothingGenerated(view, r1, s);
      AnswerAfterReconcile(op, cr, spec, c, r1, s);
      AnswerAndAbsence(view, {}, all, r1, s);
    }
    forall s | s in EnterpriseConsulted(spec) ensures GetSecret(later, s) == GetSecret(final, s) {
      AnswerDuringReconcile(cr, spec, c.objects, r1, s);
      AnswerAfterReconcile(op, cr, spec, c, r1, s);
      AnswerAndAbsence(view, ApiKeySelectors(spec), all, r1, s);
    }
    OutcomeByViews(op, cr, spec, c.objects, r1);
    NothingToGenerate(op, cr, spec, c, r1, r2);
    NormaliseAgrees(view, final, later, final, op.parses, spec);
  }

  function BeforeLegacy(spec: CorootSpec): seq<Part>
  {
    AgentParts() + (AccountParts(CorootServer) + CorootClaimsOf(spec)) + [CorootConfig, CorootSet, CorootService]
  }

  function AfterLegacy(spec: CorootSpec): seq<Part>
  {
    [PublicIngress] + (if spec.externalPrometheus then [] else PrometheusParts())
    + (if spec.externalClickhouse then [] else ClickhouseParts(spec))
  }

  /** The former Deployment is the only part that depends on the flag. */
  lemma LegacyStands(spec: CorootSpec, f: bool)
    requires !spec.agentsOnly
    ensures LaterParts(spec, f) == BeforeLegacy(spec) + (if f then [] else [LegacyDeployment]) + AfterLegacy(spec)
  {
    Regroup(AgentParts(), AccountParts(CorootServer) + CorootClaimsOf(spec), [CorootConfig, CorootSet, CorootService],
            if f then [] else [LegacyDeployment], [PublicIngress],
            if spec.externalPrometheus then [] else PrometheusParts(), if spec.externalClickhouse then [] else ClickhouseParts(spec));
  }

  lemma Regroup(a: seq<Part>, b: seq<Part>, c: seq<Part>, d: seq<Part>, e: seq<Part>, f: seq<Part>, g: seq<Part>)
    ensures a + ((b + (c + d + e)) + f + g) == (a + b + c) + d + (e + f + g)
  {}

  lemma PartWritesAppend(op: Operator, cr: Request, o: Outcome, a: seq<Part>, b: seq<Part>)
    ensures PartWrites(op, cr, o, a + b) == PartWrites(op, cr, o, a) + PartWrites(op, cr, o, b)
  {
    var all, x, y := PartWrites(op, cr, o, a + b), PartWrites(op, cr, o, a), PartWrites(op, cr, o, b);
    forall i | 0 <= i < |all| ensures all[i] == (x + y)[i] {
      assert all[i] == PlannedWrite(op, cr, o, (a + b)[i]);
      if i >= |a| { assert y[i - |a|] == PlannedWrite(op, cr, o, b[i - |a|]); }
    }
  }

  /** The writes up to the parts that follow the former Deployment. */
  ghost function WritesBefore(op: Operator, cr: Request, o: Outcome): seq<Write>
  {
    PartWrites(op, cr, o, ROLE_PARTS) + [ApiKeyWrite(cr, o)] + PartWrites(op, cr, o, BeforeLegacy(o.spec))
  }

  lemma WritesSplit(op: Operator, cr: Request, o: Outcome, f: bool)
    requires !o.spec.agentsOnly
    ensures Writes(op, cr, o, f) == WritesBefore(op, cr, o) + PartWrites(op, cr, o, if f then [] else [LegacyDeployment])
                                    + PartWrites(op, cr, o, AfterLegacy(o.spec))
  {
    var a, m, b := BeforeLegacy(o.spec), if f then [] else [LegacyDeployment], AfterLegacy(o.spec);
    LegacyStands(o.spec, f);
    PartWritesAppend(op, cr, o, a + m, b);
    PartWritesAppend(op, cr, o, a, m);
    Reassociate(PartWrites(op, cr, o, ROLE_PARTS) + [ApiKeyWrite(cr, o)], PartWrites(op, cr, o, a), PartWrites(op, cr, o, m),
                PartWrites(op, cr, o, b));
  }

  lemma Reassociate(h: seq<Write>, a: seq<Write>, m: seq<Write>, b: seq<Write>)
    ensures h + (a + m + b) == (h + a) + m + b
  {}

  /** With the same outcome, a second reconcile repeats the writes of the first, but for the former Deployment. */
  lemma SameOutcomeFixed(op: Operator, cr: Request, spec: CorootSpec, c: Cluster, r1: Random, r2: Random)
    requires var c1 := Reconciled(op, cr, spec, c, r1);
             OutcomeAt(op, cr, spec, c1.objects, r2) == OutcomeAt(op, cr, spec, c.objects, r1)
    ensures var c1 := Reconciled(op, cr, spec, c, r1); Reconciled(op, cr, spec, c1, r2) == c1
  {
    var o, f := OutcomeAt(op, cr, spec, c.objects, r1), c.legacyDeleted;
    var c1 := Reconciled(op, cr, spec, c, r1);
    OutcomeKeepsLayout(op, cr, spec, c.objects, r1);
    WritesCoherent(op, cr, o, f);
    if f == c1.legacyDeleted {
      ApplyAllTwice(c.objects, Writes(op, cr, o, f), cr, r1, r2);
    } else {
      RepeatWithoutLegacy(op, cr, o, c.objects, r1, r2);
    }
  }

  lemma RepeatWithoutLegacy(op: Operator, cr: Request, o: Outcome, s: Objects, r1: Random, r2: Random)
    requires !o.spec.agentsOnly
    ensures var once := ApplyAll(s, Writes(op, cr, o, false), cr, r1); ApplyAll(once, Writes(op, cr, o, true), cr, r2) == once
  {
    var x, w, y := PlansDiffer(op, cr, o);
    WritesCoherent(op, cr, o, false);
    ApplyOnceMore(s, x, w, y, cr, r1, r2);
  }

  lemma PlansDiffer(op: Operator, cr: Request, o: Outcome) returns (x: seq<Write>, w: Write, y: seq<Write>)
    requires !o.spec.agentsOnly
    ensures !w.Generated? && Writes(op, cr, o, false) == x + [w] + y && Writes(op, cr, o, true) == x + y
  {
    x, w, y := WritesBefore(op, cr, o), Removed(KeyOf(cr, LegacyDeployment)), PartWrites(op, cr, o, AfterLegacy(o.spec));
    WritesSplit(op, cr, o, false);
    WritesSplit(op, cr, o, true);
    LegacyWrite(op, cr, o);
    assert x + [] == x;
  }

  lemma LegacyWrite(op: Operator, cr: Request, o: Outcome)
    ensures PartWrites(op, cr, o, [LegacyDeployment]) == [Removed(KeyOf(cr, LegacyDeployment))]
    ensures PartWrites(op, cr, o, []) == []
  {
    assert PartWrites(op, cr, o, [LegacyDeployment])[0] == PlannedWrite(op, cr, o, [LegacyDeployment][0]);
  }

  // ---- if a lookup misses what is generated, the status changes ----

  lemma ProblemGoes(op: Operator, cr: Request, spec: CorootSpec, c: Cluster, r1: Random, r2: Random, view: SecretView, s: Selector)
    requires var c1 := Reconciled(op, cr, spec, c, r1);
             && IsReported(view, s, OutcomeAt(op, cr, spec, c.objects, r1).notes)
             && GetSecret(view, s).Err? && GetSecret(SecretsOf(c1.objects, cr.ns), s) != GetSecret(view, s)
    ensures var c1 := Reconciled(op, cr, spec, c, r1);
            OutcomeAt(op, cr, spec, c1.objects, r2).notes.problems != OutcomeAt(op, cr, spec, c.objects, r1).notes.problems
  {
    var c1 := Reconciled(op, cr, spec, c, r1);
    var n1, n2 := OutcomeAt(op, cr, spec, c.objects, r1).notes, OutcomeAt(op, cr, spec, c1.objects, r2).notes;
    var final := SecretsOf(c1.objects, cr.ns);
    NothingToGenerate(op, cr, spec, c, r1, r2);
    NormaliseIsSafe(final, final, op.parses, spec);
    var subject :| Reported(view, subject, Some(s), n1);
    var p := SecretUnavailable(subject, s, GetSecret(view, s).error);
    assert p in n1.problems && !Genuine(final, p);
  }

  lemma MissedIsNoticed(op: Operator, cr: Request, spec: CorootSpec, c: Cluster, r1: Random, r2: Random)
    requires !MissesNothingGenerated(SecretsOf(c.objects, cr.ns), cr, spec)
    ensures var c1 := Reconciled(op, cr, spec, c, r1);
            OutcomeAt(op, cr, spec, c1.objects, r2).notes.problems != OutcomeAt(op, cr, spec, c.objects, r1).notes.problems
  {
    var view, later := SecretsOf(c.objects, cr.ns), LaterView(cr, spec, c.objects, r1);
    var all := GeneratedSelectors(cr, spec);
    OutcomeByViews(op, cr, spec, c.objects, r1);
    if s :| s in BasicConsulted(spec) && Absence(view, {}, s) != Absence(view, all, s) {
      NothingGenerated(view, r1, s);
      AnswerAfterReconcile(op, cr, spec, c, r1, s);
      AnswerAndAbsence(view, {}, all, r1, s);
      MissingIsReported(view, later, op.parses, spec, s);
      ProblemGoes(op, cr, spec, c, r1, r2, view, s);
    } else {
      var s :| s in EnterpriseConsulted(spec) && Absence(view, ApiKeySelectors(spec), s) != Absence(view, all, s);
      AnswerDuringReconcile(cr, spec, c.objects, r1, s);
      AnswerAfterReconcile(op, cr, spec, c, r1, s);
      AnswerAndAbsence(view, ApiKeySelectors(spec), all, r1, s);
      MissingIsReported(view, later, op.parses, spec, s);
      ProblemGoes(op, cr, spec, c, r1, r2, later, s);
    }
  }

  /**
    One reconcile suffices if no lookup misses what is generated after it; and unless only agents are deployed, in
    which case no status is written, it suffices only then.
  */
  lemma OneReconcileSuffices(op: Operator, cr: Request, spec: CorootSpec, c: Cluster, r1: Random, r2: Random)
    ensures var c1 := Reconciled(op, cr, spec, c, r1);
            var misses := !MissesNothingGenerated(SecretsOf(c.objects, cr.ns), cr, spec);
            && (!misses ==> Reconciled(op, cr, spec, c1, r2) == c1)
            && (!spec.agentsOnly ==> (Reconciled(op, cr, spec, c1, r2) == c1 <==> !misses))
  {
    if MissesNothingGenerated(SecretsOf(c.objects, cr.ns), cr, spec) {
      OutcomeStays(op, cr, spec, c, r1, r2);
      SameOutcomeFixed(op, cr, spec, c, r1, r2);
    } else {
      MissedIsNoticed(op, cr, spec, c, r1, r2);
      ProblemsShow(op, cr, spec, c, r1, r2);
    }
  }

  /** Different problems mean a different status. */
  lemma ProblemsShow(op: Operator, cr: Request, spec: CorootSpec, c: Cluster, r1: Random, r2: Random)
    ensures var c1 := Reconciled(op, cr, spec, c, r1);
            !spec.agentsOnly
            && OutcomeAt(op, cr, spec, c1.objects, r2).notes.problems != OutcomeAt(op, cr, spec, c.objects, r1).notes.problems
            ==> Reconciled(op, cr, spec, c1, r2).status != c1.status
  {}

  // ---- one reconcile may not be enough ----

  const PLAIN := Credential("", None, "")
  const SHARED := Selector("keys", "token")

  /** A project whose Slack token is the very key that the operator generates for its API. */
  const SELF_REFERRING: Project :=
    Project("p", [Credential("", Some(SHARED), "")],
            Some(Integrations("", Some(Credential("", Some(SHARED), "")), None, None, None, None)), "")

  const SELF_REFERRING_SPEC: CorootSpec :=
    CorootSpec(1, None, 8080, map[], None, PLAIN, [SELF_REFERRING], None, None, None, false, true, true, 1, 1, 1, "", "", "", "", "")

  lemma SelfReferringKeys()
    ensures ResolveApiKeys(SELF_REFERRING.apiKeys, NO_NOTES).1 == Notes([SHARED], map["keys" := ["token"]], [])
  {
    var keys := SELF_REFERRING.apiKeys;
    assert keys[..0] == [] && ResolveApiKeys(keys[..0], NO_NOTES) == ([], NO_NOTES);
    assert NO_NOTES.referred + [SHARED] == [SHARED] && [] + ["token"] == ["token"];
  }

  lemma SelfReferringProblems(view: SecretView, n: Notes)
    requires n.problems == []
    ensures var n' := ResolveIntegrations(view, SELF_REFERRING.integrations, n).1;
            && n'.apiKeys == n.apiKeys
            && n'.problems == if GetSecret(view, SHARED).Ok? then []
                              else [SecretUnavailable(SlackToken, SHARED, GetSecret(view, SHARED).error)]
  {
    var i := SELF_REFERRING.integrations.value;
    var n1 := ResolvePart(view, SlackToken, i.slack, n).1;
    assert ResolveIntegrations(view, Some(i), n).1 == n1;
  }

  lemma SelfReferringNotes(view: SecretView)
    ensures var n := NormaliseBasics(view, SELF_REFERRING_SPEC).notes;
            && n.apiKeys == map["keys" := ["token"]]
            && n.problems == if GetSecret(view, SHARED).Ok? then []
                             else [SecretUnavailable(SlackToken, SHARED, GetSecret(view, SHARED).error)]
  {
    var n := ResolveApiKeys(SELF_REFERRING.apiKeys, NO_NOTES).1;
    SelfReferringKeys();
    SelfReferringProblems(view, n);
    OneProject(view, SELF_REFERRING, NO_NOTES);
  }

  lemma OneProject(view: SecretView, p: Project, n: Notes)
    ensures ResolveProjects(view, [p], n).1 == ResolveIntegrations(view, p.integrations, ResolveApiKeys(p.apiKeys, n).1).1
  {
    assert [p][..0] == [] && ResolveProjects(view, [p][..0], n) == ([], n);
  }

  /** The first reconcile reports a missing secret that it goes on to generate; only the second finds it. */
  lemma FirstReconcileMayNotSuffice(op: Operator, cr: Request, r1: Random, r2: Random)
    ensures var c1 := Reconciled(op, cr, SELF_REFERRING_SPEC, Cluster(map[], false, None), r1);
            && c1.status == Some(Misconfigured([SecretUnavailable(SlackToken, SHARED, NoSecret)]))
            && Reconciled(op, cr, SELF_REFERRING_SPEC, c1, r2).status == Some(Healthy)
  {
    var spec, c := SELF_REFERRING_SPEC, Cluster(map[], false, None);
    SelfReferringStatus(op, cr, c, r1);
    SelfReferringStatus(op, cr, Reconciled(op, cr, spec, c, r1), r2);
    SharedGenerated(op, cr, c, r1);
    SecretsAt(map[], cr.ns, "keys");
  }

  lemma SelfReferringStatus(op: Operator, cr: Request, c: Cluster, r: Random)
    ensures var found := GetSecret(SecretsOf(c.objects, cr.ns), SHARED);
            Reconciled(op, cr, SELF_REFERRING_SPEC, c, r).status
            == Some(if found.Ok? then Healthy else Misconfigured([SecretUnavailable(SlackToken, SHARED, found.error)]))
  {
    SelfReferringNotes(SecretsOf(c.objects, cr.ns));
  }

  lemma SharedAsked()
    ensures ApiKeysOf(SELF_REFERRING_SPEC) == map["keys" := ["token"]]
  {
    SelfReferringNotes(map[]);
  }

  lemma SharedGenerated(op: Operator, cr: Request, c: Cluster, r: Random)
    ensures GetSecret(SecretsOf(Reconciled(op, cr, SELF_REFERRING_SPEC, c, r).objects, cr.ns), SHARED).Ok?
  {
    SharedAsked();
    ApiKeysFilled(op, cr, SELF_REFERRING_SPEC, c, r, Key(Secret, cr.ns, "keys"));
    SecretsAt(Reconciled(op, cr, SELF_REFERRING_SPEC, c, r).objects, cr.ns, "keys");
  }
}
