/**
  The secrets one reconcile generates, and what lookups answer before, during and after it.
*/
module Generation {
  import opened Convergence
  import opened Normalisation
  import opened ObjectNames
  import opened Options
  import opened Plan
  import opened Resource
  import opened Store

  // ---- what one reconcile generates ----

  /** The API keys given by selectors. */
  function ApiKeySelectors(spec: CorootSpec): set<Selector> { ProjectKeySelectors(spec.projects) }

  function ProjectKeySelectors(ps: seq<Project>): set<Selector>
  {
    set p, k | p in ps && k in p.apiKeys && k.secret.Some? :: k.secret.value
  }

  /** The password of the operator's own ClickHouse. */
  function PasswordSelectors(cr: Request, spec: CorootSpec): set<Selector>
  {
    if spec.agentsOnly || spec.externalClickhouse then {} else {Selector(NameOf(cr, PasswordSecret), PASSWORD_KEY)}
  }

  function GeneratedSelectors(cr: Request, spec: CorootSpec): set<Selector>
  {
    ApiKeySelectors(spec) + PasswordSelectors(cr, spec)
  }

  /** What is missing of a selector's value, once the given ones are generated. */
  function Absence(view: SecretView, generated: set<Selector>, s: Selector): Option<Missing>
  {
    if s in generated || (s.name in view && s.key in view[s.name]) then None
    else if s.name in view || (exists g | g in generated :: g.name == s.name) then Some(NoKey)
    else Some(NoSecret)
  }

  // ---- the answers to lookups ----

  /** A lookup after generation. */
  function Answer(view: SecretView, generated: set<Selector>, random: Random, s: Selector): Result<string, Missing>
  {
    if s.name in view && s.key in view[s.name] then Ok(view[s.name][s.key])
    else if s in generated then Ok(random(s.name, s.key))
    else Err(Absence(view, generated, s).value)
  }

  lemma AnswerAndAbsence(view: SecretView, g: set<Selector>, g': set<Selector>, random: Random, s: Selector)
    requires g <= g'
    ensures Answer(view, g, random, s) == Answer(view, g', random, s) <==> Absence(view, g, s) == Absence(view, g', s)
    ensures Answer(view, g, random, s).Ok? ==> Answer(view, g', random, s) == Answer(view, g, random, s)
  {}

  lemma NothingGenerated(view: SecretView, random: Random, s: Selector)
    ensures GetSecret(view, s) == Answer(view, {}, random, s)
  {}

  /** Writes that generate exactly the given selectors give their answers. */
  lemma GeneratedAnswer(s0: Objects, ws: seq<Write>, cr: Request, random: Random, generated: set<Selector>, s: Selector)
    requires var k := Key(Secret, cr.ns, s.name);
             && OnlyGenerates(ws, k)
             && (Touched(ws, k) <==> exists g | g in generated :: g.name == s.name)
             && (AskedFor(ws, k, s.key) <==> s in generated)
    ensures GetSecret(SecretsOf(ApplyAll(s0, ws, cr, random), cr.ns), s) == Answer(SecretsOf(s0, cr.ns), generated, random, s)
  {
    var k, t := Key(Secret, cr.ns, s.name), ApplyAll(s0, ws, cr, random);
    ApplyAllAt(s0, ws, k, cr, random);
    DataAfter(ws, k, At(s0, k), cr, random);
    SecretsAt(s0, cr.ns, s.name);
    SecretsAt(t, cr.ns, s.name);
    assert DataAt(At(t, k), s.key) == if DataAt(At(s0, k), s.key).Some? then DataAt(At(s0, k), s.key)
                                      else if s in generated then Some(random(s.name, s.key)) else None;
  }

  // ---- the selectors generated by the plan ----

  function AsksOf(apiKeys: map<string, seq<string>>): set<Selector>
  {
    set name, key | name in apiKeys && key in apiKeys[name] :: Selector(name, key)
  }

  predicate NoneEmpty(apiKeys: map<string, seq<string>>) { forall name | name in apiKeys :: apiKeys[name] != [] }

  function KeySelectors(ks: seq<Credential>): set<Selector> { set k | k in ks && k.secret.Some? :: k.secret.value }

  lemma KeyAsks(k: Credential, n: Notes)
    requires NoneEmpty(n.apiKeys)
    ensures var m := ResolveApiKey(k, n).1.apiKeys; NoneEmpty(m) && AsksOf(m) == AsksOf(n.apiKeys) + Chosen(k.secret)
  {
    if k.secret.Some? {
      var s, m := k.secret.value, ResolveApiKey(k, n).1.apiKeys;
      forall name, key ensures Selector(name, key) in AsksOf(m) <==> Selector(name, key) in AsksOf(n.apiKeys) + {s} {
        assert Selector(name, key) in AsksOf(m) <==> name in m && key in m[name];
      }
    }
  }

  lemma {:induction false} KeysAsk(ks: seq<Credential>, n: Notes)
    requires NoneEmpty(n.apiKeys)
    ensures var m := ResolveApiKeys(ks, n).1.apiKeys; NoneEmpty(m) && AsksOf(m) == AsksOf(n.apiKeys) + KeySelectors(ks)
  {
    if ks != [] {
      var front, last := ks[..|ks| - 1], ks[|ks| - 1];
      KeysAsk(front, n);
      KeyAsks(last, ResolveApiKeys(front, n).1);
      assert forall k :: k in ks <==> k in front || k == last;
    }
  }

  lemma {:induction false} ProjectsAsk(view: SecretView, ps: seq<Project>, n: Notes)
    requires NoneEmpty(n.apiKeys)
    ensures var m := ResolveProjects(view, ps, n).1.apiKeys;
            NoneEmpty(m) && AsksOf(m) == AsksOf(n.apiKeys) + ProjectKeySelectors(ps)
  {
    if ps != [] {
      var front, last := ps[..|ps| - 1], ps[|ps| - 1];
      ProjectsAsk(view, front, n);
      var n' := ResolveProjects(view, front, n).1;
      KeysAsk(last.apiKeys, n');
      IntegrationsKeepApiKeys(view, last.integrations, ResolveApiKeys(last.apiKeys, n').1);
      ProjectKeysAppend(front, last);
      assert ps == front + [last];
    }
  }

  lemma ProjectKeysAppend(front: seq<Project>, last: Project)
    ensures ProjectKeySelectors(front + [last]) == ProjectKeySelectors(front) + KeySelectors(last.apiKeys)
  {
    var ps := front + [last];
    assert forall p :: p in ps <==> p in front || p == last;
  }

  /** The API keys generated are those given by selectors. */
  lemma AskedBySpec(spec: CorootSpec)
    ensures NoneEmpty(ApiKeysOf(spec)) && AsksOf(ApiKeysOf(spec)) == ApiKeySelectors(spec)
  {
    var tooMany := spec.replicas > 1 && spec.postgres.None?;
    var n0 := if tooMany then Noted(NO_NOTES, ReplicasNeedPostgres) else NO_NOTES;
    ProjectsAsk(map[], spec.projects, ResolveAdminPassword(map[], spec.adminPassword, n0).1);
  }

  /** A plan asks for the API keys and the password, and touches no other secret. */
  lemma PlanAsks(op: Operator, cr: Request, spec: CorootSpec, o: Outcome, f: bool, name: string, key: string)
    requires o.notes.apiKeys == ApiKeysOf(spec)
    requires o.spec.agentsOnly == spec.agentsOnly && o.spec.externalClickhouse == spec.externalClickhouse
    ensures AskedFor(Writes(op, cr, o, f), Key(Secret, cr.ns, name), key) <==> Selector(name, key) in GeneratedSelectors(cr, spec)
  {
    var ws, k := Writes(op, cr, o, f), Key(Secret, cr.ns, name);
    AskedBySpec(spec);
    PasswordPart(o.spec, f);
    if AskedFor(ws, k, key) {
      var i :| 0 <= i < |ws| && Touches(ws[i], k) && ws[i].Generated? && key in ws[i].secrets[name];
      AskedIsGenerated(op, cr, spec, o, f, i, name, key);
    }
    if Selector(name, key) in ApiKeySelectors(spec) {
      WritesByIndex(op, cr, o, f);
      assert Selector(name, key) in AsksOf(ApiKeysOf(spec));
      assert Touches(ws[2], k) && ws[2].Generated? && key in ws[2].secrets[k.name];
    }
    if Selector(name, key) in PasswordSelectors(cr, spec) {
      var j := PasswordWriteAt(op, cr, o, f);
      assert Touches(ws[j], k) && ws[j].Generated? && key in ws[j].secrets[k.name];
    }
  }

  lemma AskedIsGenerated(op: Operator, cr: Request, spec: CorootSpec, o: Outcome, f: bool, i: nat, name: string, key: string)
    requires o.notes.apiKeys == ApiKeysOf(spec)
    requires o.spec.agentsOnly == spec.agentsOnly && o.spec.externalClickhouse == spec.externalClickhouse
    requires var ws, k := Writes(op, cr, o, f), Key(Secret, cr.ns, name);
             i < |ws| && Touches(ws[i], k) && ws[i].Generated? && key in ws[i].secrets[name]
    ensures Selector(name, key) in GeneratedSelectors(cr, spec)
  {
    AskedBySpec(spec);
    var p := WriteOrigin(op, cr, o, f, i);
    if p.Some? {
      GeneratingPart(op, cr, o, p.value);
      PasswordPart(o.spec, f);
    } else {
      assert Selector(name, key) in AsksOf(ApiKeysOf(spec));
    }
  }

  /** A touched secret is asked for some key. */
  lemma TouchedIsAsked(ws: seq<Write>, k: Key) returns (key: string)
    requires OnlyGenerates(ws, k) && Touched(ws, k)
    ensures AskedFor(ws, k, key)
  {
    var i :| 0 <= i < |ws| && Touches(ws[i], k);
    key := ws[i].secrets[k.name][0];
    assert Touches(ws[i], k) && ws[i].Generated? && key in ws[i].secrets[k.name];
  }

  lemma PlanTouches(op: Operator, cr: Request, spec: CorootSpec, o: Outcome, f: bool, name: string)
    requires o.notes.apiKeys == ApiKeysOf(spec)
    requires o.spec.agentsOnly == spec.agentsOnly && o.spec.externalClickhouse == spec.externalClickhouse
    ensures Touched(Writes(op, cr, o, f), Key(Secret, cr.ns, name)) <==> exists g | g in GeneratedSelectors(cr, spec) :: g.name == name
  {
    var ws, k := Writes(op, cr, o, f), Key(Secret, cr.ns, name);
    SecretsOnlyGenerated(op, cr, o, f, k);
    if Touched(ws, k) {
      var key := TouchedIsAsked(ws, k);
      PlanAsks(op, cr, spec, o, f, name, key);
      assert Selector(name, key).name == name;
    }
    if g :| g in GeneratedSelectors(cr, spec) && g.name == name {
      PlanAsks(op, cr, spec, o, f, name, g.key);
    }
  }

  // ---- lookups before, during and after the first reconcile ----

  lemma AnswerAfterReconcile(op: Operator, cr: Request, spec: CorootSpec, c: Cluster, r: Random, s: Selector)
    ensures GetSecret(SecretsOf(Reconciled(op, cr, spec, c, r).objects, cr.ns), s)
         == Answer(SecretsOf(c.objects, cr.ns), GeneratedSelectors(cr, spec), r, s)
  {
    var o := OutcomeAt(op, cr, spec, c.objects, r);
    OutcomeApiKeys(op, cr, spec, c.objects, r);
    OutcomeKeepsLayout(op, cr, spec, c.objects, r);
    SecretsOnlyGenerated(op, cr, o, c.legacyDeleted, Key(Secret, cr.ns, s.name));
    PlanTouches(op, cr, spec, o, c.legacyDeleted, s.name);
    PlanAsks(op, cr, spec, o, c.legacyDeleted, s.name, s.key);
    GeneratedAnswer(c.objects, Writes(op, cr, o, c.legacyDeleted), cr, r, GeneratedSelectors(cr, spec), s);
  }

  /** The view that the enterprise part of validation has in the first reconcile. */
  function LaterView(cr: Request, spec: CorootSpec, s: Objects, random: Random): SecretView
  {
    SecretsOf(Apply(s, Generated(cr.ns, ApiKeysOf(spec), true), cr, random), cr.ns)
  }

  lemma AnswerDuringReconcile(cr: Request, spec: CorootSpec, s0: Objects, r: Random, s: Selector)
    ensures GetSecret(LaterView(cr, spec, s0, r), s) == Answer(SecretsOf(s0, cr.ns), ApiKeySelectors(spec), r, s)
  {
    var w, k := Generated(cr.ns, ApiKeysOf(spec), true), Key(Secret, cr.ns, s.name);
    var ws := [w];
    AskedBySpec(spec);
    assert ws[..0] == [] && ApplyAll(s0, ws, cr, r) == Apply(s0, w, cr, r);
    OneWriteAsks(w, k, s.key);
    if Touched(ws, k) {
      assert Selector(s.name, ApiKeysOf(spec)[s.name][0]) in AsksOf(ApiKeysOf(spec));
    }
    GeneratedAnswer(s0, ws, cr, r, ApiKeySelectors(spec), s);
  }

  lemma OneWriteAsks(w: Write, k: Key, key: string)
    requires w.Generated?
    ensures Touched([w], k) <==> Touches(w, k)
    ensures AskedFor([w], k, key) <==> Touches(w, k) && key in w.secrets[k.name]
  {
    assert [w][0] == w;
  }

  lemma OutcomeByViews(op: Operator, cr: Request, spec: CorootSpec, s: Objects, r: Random)
    ensures OutcomeAt(op, cr, spec, s, r) == Normalise(SecretsOf(s, cr.ns), LaterView(cr, spec, s, r), op.parses, spec)
  {
    OutcomeApiKeys(op, cr, spec, s, r);
  }

  /** After a complete reconcile every API-key selector, and the ClickHouse password selector, points at a value. */
  lemma SelectorsResolve(op: Operator, cr: Request, spec: CorootSpec, c: Cluster, r: Random, s: Selector)
    requires s in GeneratedSelectors(cr, spec)
    ensures GetSecret(SecretsOf(Reconciled(op, cr, spec, c, r).objects, cr.ns), s).Ok?
  {
    AnswerAfterReconcile(op, cr, spec, c, r, s);
  }

  /** The operator's own ClickHouse has its password after a reconcile: the one that was there, or else a new one. */
  lemma PasswordGenerated(op: Operator, cr: Request, spec: CorootSpec, c: Cluster, r: Random)
    requires !spec.agentsOnly && !spec.externalClickhouse
    ensures var s := Selector(cr.name + "-clickhouse", "password");
            var before := GetSecret(SecretsOf(c.objects, cr.ns), s);
            GetSecret(SecretsOf(Reconciled(op, cr, spec, c, r).objects, cr.ns), s) == if before.Ok? then before else Ok(r(s.name, s.key))
  {
    ClickhouseNames(cr);
    AnswerAfterReconcile(op, cr, spec, c, r, Selector(cr.name + "-clickhouse", "password"));
  }
}
