/**
  The object store and the effect of the operator's writes on it.  API calls are atomic and succeed; nobody else
  writes.
*/
module Store {
  import opened Json
  import opened LastApplied
  import opened ObjectNames
  import opened Options
  import opened ThreeWayMerge

  /** What an object contains: its specification, rules or fixed content. */
  type Body = j: Json | j.Object? witness EMPTY

  /** A stored object; `controller` is the resource named by its controller reference, `data` that of a secret. */
  datatype Stored = Stored(annotations: Annotations, controller: Option<Request>, body: Body, data: map<string, string>)

  type Objects = map<Key, Stored>

  /** What the wrappers do to a merged specification. */
  datatype Mode = AsMerged | KeepClaimTemplates | ForcePorts

  datatype Write =
    | Merged(key: Key, spec: Spec, annotations: map<string, string>, mode: Mode, retain: bool)
    | Replaced(key: Key, content: Body, retain: bool)
    | Ensured(key: Key, content: Body, retain: bool)
    | Generated(ns: string, secrets: map<string, seq<string>>, retain: bool)
    | Removed(key: Key)

  /** Generated values: any function of secret name and key. */
  type Random = (string, string) -> string

  const CLAIM_TEMPLATES := "volumeClaimTemplates"
  const PORTS := "ports"

  function At(s: Objects, k: Key): Option<Stored> { if k in s then Some(s[k]) else None }

  /** SetControllerReference and RemoveControllerReference; their errors are ignored. */
  function Adopt(controller: Option<Request>, owner: Request, retain: bool): Option<Request>
  {
    if retain then (if controller == Some(owner) then None else controller)
    else if controller.None? then Some(owner) else controller
  }

  /** `j` with the member `k` of `source`, or without it if `source` has none. */
  function WithMember(j: Json, k: string, source: Json): Body
  {
    if k in Fields(source) then Object(Fields(j)[k := Fields(source)[k]]) else Object(Fields(j) - {k})
  }

  function Adjusted(mode: Mode, live: Body, target: Spec, merged: Json): Body
    requires merged.Object?
  {
    match mode
    case AsMerged => merged
    case KeepClaimTemplates => WithMember(merged, CLAIM_TEMPLATES, live)
    case ForcePorts => WithMember(merged, PORTS, target)
  }

  /** Annotations given in a resource are plain texts. */
  function Plainly(annotations: map<string, string>): Annotations
  {
    map k | k in annotations :: Plain(annotations[k])
  }

  /** Create or update by merging; a malformed record fails the call and nothing is written. */
  function AfterMerge(o: Option<Stored>, owner: Request, w: Write): Option<Stored>
    requires w.Merged?
  {
    var live := if o.Some? then o.value else Stored(Plainly(w.annotations), None, w.spec, map[]);
    match Original(live.annotations)
    case Err(_) => o
    case Ok(original) =>
      Some(Stored(Stamped(live.annotations, Plainly(w.annotations), w.spec),
                  Adopt(live.controller, owner, w.retain),
                  Adjusted(w.mode, live.body, w.spec, Merge(original, w.spec, live.body)),
                  live.data))
  }

  /** Missing keys get a generated value; existing ones are never touched. */
  function Filled(data: map<string, string>, name: string, keys: seq<string>, random: Random): map<string, string>
  {
    data + map key | key in keys && key !in data :: random(name, key)
  }

  predicate Touches(w: Write, k: Key)
  {
    if w.Generated? then k.kind.Secret? && k.ns == w.ns && k.name in w.secrets && w.secrets[k.name] != [] else k == w.key
  }

  /** The object under `k` after one write. */
  function Effect(w: Write, k: Key, o: Option<Stored>, owner: Request, random: Random): Option<Stored>
  {
    if !Touches(w, k) then o
    else
      match w
      case Merged(_, _, _, _, _) => AfterMerge(o, owner, w)
      case Replaced(_, content, retain) =>
        var live := if o.Some? then o.value else Stored(map[], None, content, map[]);
        Some(live.(controller := Adopt(live.controller, owner, retain), body := content))
      case Ensured(_, content, retain) =>
        var live := if o.Some? then o.value else Stored(map[], None, content, map[]);
        Some(live.(controller := Adopt(live.controller, owner, retain)))
      case Generated(_, secrets, retain) =>
        var live := if o.Some? then o.value else Stored(map[], None, EMPTY, map[]);
        Some(live.(controller := Adopt(live.controller, owner, retain), data := Filled(live.data, k.name, secrets[k.name], random)))
      case Removed(_) => None
  }

  function TouchedKeys(w: Write): set<Key>
  {
    if w.Generated? then set name | name in w.secrets && w.secrets[name] != [] :: Key(Secret, w.ns, name) else {w.key}
  }

  function Apply(s: Objects, w: Write, owner: Request, random: Random): Objects
  {
    map k | k in s.Keys + TouchedKeys(w) && Effect(w, k, At(s, k), owner, random).Some?
      :: Effect(w, k, At(s, k), owner, random).value
  }

  function ApplyAll(s: Objects, ws: seq<Write>, owner: Request, random: Random): Objects
  {
    if ws == [] then s else Apply(ApplyAll(s, ws[..|ws| - 1], owner, random), ws[|ws| - 1], owner, random)
  }

  /** The object under `k` after a list of writes. */
  function EffectAll(ws: seq<Write>, k: Key, o: Option<Stored>, owner: Request, random: Random): Option<Stored>
  {
    if ws == [] then o else Effect(ws[|ws| - 1], k, EffectAll(ws[..|ws| - 1], k, o, owner, random), owner, random)
  }

  lemma ApplyAt(s: Objects, w: Write, k: Key, owner: Request, random: Random)
    ensures At(Apply(s, w, owner, random), k) == Effect(w, k, At(s, k), owner, random)
  {
    if Touches(w, k) { assert k in TouchedKeys(w); }
  }

  /** Objects under different keys do not influence each other. */
  lemma {:induction false} ApplyAllAt(s: Objects, ws: seq<Write>, k: Key, owner: Request, random: Random)
    ensures At(ApplyAll(s, ws, owner, random), k) == EffectAll(ws, k, At(s, k), owner, random)
  {
    if ws != [] {
      ApplyAllAt(s, ws[..|ws| - 1], k, owner, random);
      ApplyAt(ApplyAll(s, ws[..|ws| - 1], owner, random), ws[|ws| - 1], k, owner, random);
    }
  }

  lemma SameEverywhere(s: Objects, t: Objects)
    requires forall k :: At(s, k) == At(t, k)
    ensures s == t
  {
    forall k ensures (k in s <==> k in t) && (k in s ==> s[k] == t[k]) {
      assert At(s, k) == At(t, k);
    }
  }

  // ---- writing twice ----

  /** Two objects agree on a member. */
  predicate SameMember(a: Json, b: Json, k: string)
  {
    (k in Fields(a) <==> k in Fields(b)) && (k in Fields(a) ==> Fields(a)[k] == Fields(b)[k])
  }

  /** Members are merged independently of each other. */
  lemma MergeMemberwise(original: Json, target: Spec, a: Body, b: Body, k: string)
    requires SameMember(a, b, k)
    ensures SameMember(Merge(original, target, a), Merge(original, target, b), k)
  {
    MergeIsReconciled(original, target, a);
    MergeIsReconciled(original, target, b);
    assert Field(a, k) == Field(b, k);
  }

  predicate Adjusts(mode: Mode, k: string)
  {
    (mode.KeepClaimTemplates? && k == CLAIM_TEMPLATES) || (mode.ForcePorts? && k == PORTS)
  }

  lemma AdjustedMember(mode: Mode, live: Body, target: Spec, merged: Body, k: string)
    ensures var a := Adjusted(mode, live, target, merged);
            if Adjusts(mode, k) then SameMember(a, if mode.KeepClaimTemplates? then live else target, k)
            else SameMember(a, merged, k)
  {}

  lemma SameBody(a: Body, b: Body)
    requires forall k :: SameMember(a, b, k)
    ensures a == b
  {
    forall k ensures (k in a.fields <==> k in b.fields) && (k in a.fields ==> a.fields[k] == b.fields[k]) {
      assert SameMember(a, b, k);
    }
    assert a.fields == b.fields;
  }

  /** Restoring or forcing one member does not disturb the merge of the others. */
  lemma MergeAfterAdjusting(mode: Mode, live: Body, original: Json, target: Spec)
    ensures var once := Adjusted(mode, live, target, Merge(original, target, live));
            Adjusted(mode, once, target, Merge(target, target, once)) == once
  {
    var m := Merge(original, target, live);
    var once := Adjusted(mode, live, target, m);
    var again := Adjusted(mode, once, target, Merge(target, target, once));
    forall k ensures SameMember(again, once, k) {
      AdjustedMember(mode, live, target, m, k);
      AdjustedMember(mode, once, target, Merge(target, target, once), k);
      if !Adjusts(mode, k) {
        MergeMemberwise(target, target, once, m, k);
        RemergeFindsNothing(original, target, live);
      }
    }
    SameBody(again, once);
  }

  /** A merging write that was just made changes nothing. */
  lemma MergeTwice(o: Option<Stored>, owner: Request, w: Write)
    requires w.Merged?
    ensures AfterMerge(AfterMerge(o, owner, w), owner, w) == AfterMerge(o, owner, w)
  {
    var live := if o.Some? then o.value else Stored(Plainly(w.annotations), None, w.spec, map[]);
    match Original(live.annotations)
    case Err(_) =>
    case Ok(original) =>
      MergeOfMerged(w, live, original, owner);
  }

  lemma MergeOfMerged(w: Write, live: Stored, original: Json, owner: Request)
    requires w.Merged?
    ensures var once := Stored(Stamped(live.annotations, Plainly(w.annotations), w.spec), Adopt(live.controller, owner, w.retain),
                               Adjusted(w.mode, live.body, w.spec, Merge(original, w.spec, live.body)), live.data);
            AfterMerge(Some(once), owner, w) == Some(once)
  {
    var once := Adjusted(w.mode, live.body, w.spec, Merge(original, w.spec, live.body));
    var annotations := Stamped(live.annotations, Plainly(w.annotations), w.spec);
    assert Original(annotations) == Ok(w.spec);
    StampAgain(live.annotations, Plainly(w.annotations), w.spec);
    MergeAfterAdjusting(w.mode, live.body, original, w.spec);
  }

  lemma FillTwice(data: map<string, string>, name: string, keys: seq<string>, r1: Random, r2: Random)
    ensures Filled(Filled(data, name, keys, r1), name, keys, r2) == Filled(data, name, keys, r1)
  {}

  /** Every single write is idempotent, whatever is generated the second time. */
  lemma EffectTwice(w: Write, k: Key, o: Option<Stored>, owner: Request, r1: Random, r2: Random)
    ensures Effect(w, k, Effect(w, k, o, owner, r1), owner, r2) == Effect(w, k, o, owner, r1)
  {
    if Touches(w, k) && w.Merged? { MergeTwice(o, owner, w); }
    if Touches(w, k) && w.Generated? {
      FillTwice(if o.Some? then o.value.data else map[], k.name, w.secrets[k.name], r1, r2);
    }
  }

  // ---- lists of writes ----

  /** Writes to one key are the same write, or all generate secrets. */
  ghost predicate Coherent(ws: seq<Write>)
  {
    forall i, j, k | 0 <= i < |ws| && 0 <= j < |ws| && Touches(ws[i], k) && Touches(ws[j], k) ::
      ws[i] == ws[j] || (ws[i].Generated? && ws[j].Generated?)
  }

  ghost predicate Touched(ws: seq<Write>, k: Key)
  {
    exists i | 0 <= i < |ws| :: Touches(ws[i], k)
  }

  lemma {:induction false} UntouchedStays(ws: seq<Write>, k: Key, o: Option<Stored>, owner: Request, random: Random)
    requires !Touched(ws, k)
    ensures EffectAll(ws, k, o, owner, random) == o
  {
    if ws != [] {
      assert !Touches(ws[|ws| - 1], k);
      UntouchedStays(ws[..|ws| - 1], k, o, owner, random);
    }
  }

  /** If all writes to a key are one write, it takes effect once. */
  lemma {:induction false} SingleWrite(ws: seq<Write>, w: Write, k: Key, o: Option<Stored>, owner: Request, random: Random)
    requires forall i | 0 <= i < |ws| && Touches(ws[i], k) :: ws[i] == w
    ensures EffectAll(ws, k, o, owner, random) == if Touched(ws, k) then Effect(w, k, o, owner, random) else o
  {
    if ws != [] {
      var front := ws[..|ws| - 1];
      SingleWrite(front, w, k, o, owner, random);
      if Touched(front, k) {
        var i :| 0 <= i < |front| && Touches(front[i], k);
        assert Touches(ws[i], k);
        EffectTwice(w, k, o, owner, random, random);
      } else if Touches(ws[|ws| - 1], k) {
        assert Touched(ws, k);
      } else {
        assert !Touched(ws, k);
      }
    }
  }

  /** All writes to the key generate secrets. */
  ghost predicate OnlyGenerates(ws: seq<Write>, k: Key)
  {
    forall i | 0 <= i < |ws| && Touches(ws[i], k) :: ws[i].Generated?
  }

  /** Every secret key that some write asks for exists. */
  ghost predicate AllFilled(ws: seq<Write>, k: Key, data: map<string, string>)
  {
    forall i, key | 0 <= i < |ws| && ws[i].Generated? && Touches(ws[i], k) && key in ws[i].secrets[k.name] :: key in data
  }

  /** Whether keys are filled depends only on which writes generate them. */
  lemma FilledByOthers(ws: seq<Write>, others: seq<Write>, k: Key, data: map<string, string>)
    requires AllFilled(others, k, data)
    requires forall i | 0 <= i < |ws| && ws[i].Generated? :: ws[i] in others
    ensures AllFilled(ws, k, data)
  {
    forall i, key | 0 <= i < |ws| && ws[i].Generated? && Touches(ws[i], k) && key in ws[i].secrets[k.name]
      ensures key in data
    {
      var j :| 0 <= j < |others| && others[j] == ws[i];
    }
  }

  /** Generating fills in what is missing and keeps every value. */
  lemma {:induction false} GeneratesFill(ws: seq<Write>, k: Key, o: Option<Stored>, owner: Request, random: Random)
    requires OnlyGenerates(ws, k) && (o.Some? || Touched(ws, k))
    ensures var o' := EffectAll(ws, k, o, owner, random);
            && o'.Some? && AllFilled(ws, k, o'.value.data)
            && (o.Some? ==> o.value.data.Items <= o'.value.data.Items
                            && o'.value.annotations == o.value.annotations && o'.value.body == o.value.body)
  {
    if ws != [] {
      var front, last := ws[..|ws| - 1], ws[|ws| - 1];
      if o.Some? || Touched(front, k) {
        GeneratesFill(front, k, o, owner, random);
      } else {
        UntouchedStays(front, k, o, owner, random);
      }
    }
  }

  /** Some write asks for a value of that key. */
  ghost predicate AskedFor(ws: seq<Write>, k: Key, key: string)
  {
    exists i | 0 <= i < |ws| :: Touches(ws[i], k) && ws[i].Generated? && key in ws[i].secrets[k.name]
  }

  /** What generating makes of a secret, key by key. */
  lemma {:induction false} DataAfter(ws: seq<Write>, k: Key, o: Option<Stored>, owner: Request, random: Random)
    requires OnlyGenerates(ws, k)
    ensures var o' := EffectAll(ws, k, o, owner, random);
            && (o'.Some? <==> o.Some? || Touched(ws, k))
            && (o'.Some? ==> forall key :: DataAt(o', key) == if DataAt(o, key).Some? then DataAt(o, key)
                                                             else if AskedFor(ws, k, key) then Some(random(k.name, key)) else None)
  {
    if ws != [] {
      var front, last := ws[..|ws| - 1], ws[|ws| - 1];
      DataAfter(front, k, o, owner, random);
      var o1, o' := EffectAll(front, k, o, owner, random), EffectAll(ws, k, o, owner, random);
      assert Touched(ws, k) <==> Touched(front, k) || Touches(last, k) by { TouchedStep(front, last, k); }
      forall key | o'.Some?
        ensures DataAt(o', key) == if DataAt(o, key).Some? then DataAt(o, key)
                                   else if AskedFor(ws, k, key) then Some(random(k.name, key)) else None
      {
        AskedStep(front, last, k, key);
        if !Touched(front, k) { UntouchedAsksNothing(front, k, key); }
      }
    }
  }

  function DataAt(o: Option<Stored>, key: string): Option<string>
  {
    if o.Some? && key in o.value.data then Some(o.value.data[key]) else None
  }

  lemma TouchedStep(front: seq<Write>, last: Write, k: Key)
    ensures Touched(front + [last], k) <==> Touched(front, k) || Touches(last, k)
  {
    var ws := front + [last];
    assert ws[|front|] == last;
    if Touched(front, k) {
      var i :| 0 <= i < |front| && Touches(front[i], k);
      assert Touches(ws[i], k);
    }
  }

  lemma AskedStep(front: seq<Write>, last: Write, k: Key, key: string)
    ensures AskedFor(front + [last], k, key)
       <==> AskedFor(front, k, key) || (Touches(last, k) && last.Generated? && key in last.secrets[k.name])
  {
    var ws := front + [last];
    assert ws[|front|] == last;
    if AskedFor(front, k, key) {
      var i :| 0 <= i < |front| && Touches(front[i], k) && front[i].Generated? && key in front[i].secrets[k.name];
      assert Touches(ws[i], k) && ws[i].Generated? && key in ws[i].secrets[k.name];
    }
  }

  lemma UntouchedAsksNothing(ws: seq<Write>, k: Key, key: string)
    requires !Touched(ws, k)
    ensures !AskedFor(ws, k, key)
  {}

  /** The controller references that writes of one kind to one key leave behind. */
  function ControllerAfter(ws: seq<Write>, k: Key, c: Option<Request>, owner: Request): Option<Request>
  {
    if ws == [] then c
    else
      var c' := ControllerAfter(ws[..|ws| - 1], k, c, owner);
      var last := ws[|ws| - 1];
      if last.Generated? && Touches(last, k) then Adopt(c', owner, last.retain) else c'
  }

  /** A foreign controller stays; otherwise the last write decides. */
  lemma {:induction false} ControllerDecided(ws: seq<Write>, k: Key, c: Option<Request>, d: Option<Request>, owner: Request)
    requires OnlyGenerates(ws, k)
    requires c.None? || c == Some(owner)
    requires d.None? || d == Some(owner)
    ensures var c' := ControllerAfter(ws, k, c, owner);
            && (c'.None? || c' == Some(owner))
            && c' == if Touched(ws, k) then ControllerAfter(ws, k, d, owner) else c
  {
    if ws != [] {
      var front := ws[..|ws| - 1];
      ControllerDecided(front, k, c, d, owner);
      if Touches(ws[|ws| - 1], k) {
        assert Touched(ws, k);
        ControllerStaysOwn(front, k, d, owner);
      } else if Touched(front, k) {
        var i :| 0 <= i < |front| && Touches(front[i], k);
        assert Touches(ws[i], k);
      } else {
        assert !Touched(ws, k);
      }
    }
  }

  lemma {:induction false} ControllerStaysOwn(ws: seq<Write>, k: Key, c: Option<Request>, owner: Request)
    ensures var c' := ControllerAfter(ws, k, c, owner);
            if c.None? || c == Some(owner) then c'.None? || c' == Some(owner) else c' == c
  {
    if ws != [] { ControllerStaysOwn(ws[..|ws| - 1], k, c, owner); }
  }

  lemma ControllerTwice(ws: seq<Write>, k: Key, c: Option<Request>, owner: Request)
    requires OnlyGenerates(ws, k)
    ensures var c' := ControllerAfter(ws, k, c, owner); ControllerAfter(ws, k, c', owner) == c'
  {
    ControllerStaysOwn(ws, k, c, owner);
    var c' := ControllerAfter(ws, k, c, owner);
    if c.None? || c == Some(owner) {
      ControllerDecided(ws, k, c, c', owner);
      ControllerDecided(ws, k, c', c, owner);
    } else {
      ControllerStaysOwn(ws, k, c', owner);
    }
  }

  lemma {:induction false} GeneratesControl(ws: seq<Write>, k: Key, o: Stored, owner: Request, random: Random)
    requires OnlyGenerates(ws, k)
    ensures var o' := EffectAll(ws, k, Some(o), owner, random);
            o'.Some? && o'.value.controller == ControllerAfter(ws, k, o.controller, owner)
  {
    if ws != [] {
      GeneratesControl(ws[..|ws| - 1], k, o, owner, random);
      GeneratesFill(ws[..|ws| - 1], k, Some(o), owner, random);
    }
  }

  /** Generating again leaves full secrets as they are, whatever would be generated. */
  lemma {:induction false} FullSecretsStay(ws: seq<Write>, k: Key, o: Stored, owner: Request, random: Random)
    requires OnlyGenerates(ws, k) && AllFilled(ws, k, o.data)
    ensures EffectAll(ws, k, Some(o), owner, random) == Some(o.(controller := ControllerAfter(ws, k, o.controller, owner)))
  {
    if ws != [] {
      var front, last := ws[..|ws| - 1], ws[|ws| - 1];
      FullSecretsStay(front, k, o, owner, random);
      if Touches(last, k) { assert Filled(o.data, k.name, last.secrets[k.name], random) == o.data; }
    }
  }

  /** Where an absent secret starts from makes no difference to its final controller. */
  lemma {:induction false} FirstGenerate(ws: seq<Write>, k: Key, owner: Request, random: Random)
    requires OnlyGenerates(ws, k) && Touched(ws, k)
    ensures EffectAll(ws, k, None, owner, random) == EffectAll(ws, k, Some(Stored(map[], None, EMPTY, map[])), owner, random)
  {
    var front, last := ws[..|ws| - 1], ws[|ws| - 1];
    if Touched(front, k) {
      FirstGenerate(front, k, owner, random);
    } else {
      UntouchedStays(front, k, None, owner, random);
      UntouchedStays(front, k, Some(Stored(map[], None, EMPTY, map[])), owner, random);
    }
  }

  lemma GeneratesTwice(ws: seq<Write>, k: Key, o: Option<Stored>, owner: Request, r1: Random, r2: Random)
    requires OnlyGenerates(ws, k) && Touched(ws, k)
    ensures EffectAll(ws, k, EffectAll(ws, k, o, owner, r1), owner, r2) == EffectAll(ws, k, o, owner, r1)
  {
    if o.None? { FirstGenerate(ws, k, owner, r1); }
    var start := if o.Some? then o.value else Stored(map[], None, EMPTY, map[]);
    GeneratesFill(ws, k, Some(start), owner, r1);
    GeneratesControl(ws, k, start, owner, r1);
    var once := EffectAll(ws, k, Some(start), owner, r1).value;
    FullSecretsStay(ws, k, once, owner, r2);
    ControllerTwice(ws, k, start.controller, owner);
  }

  /** A coherent list of writes is idempotent at every key. */
  lemma EffectAllTwice(ws: seq<Write>, k: Key, o: Option<Stored>, owner: Request, r1: Random, r2: Random)
    requires Coherent(ws)
    ensures EffectAll(ws, k, EffectAll(ws, k, o, owner, r1), owner, r2) == EffectAll(ws, k, o, owner, r1)
  {
    var once := EffectAll(ws, k, o, owner, r1);
    if !Touched(ws, k) {
      UntouchedStays(ws, k, o, owner, r1);
      UntouchedStays(ws, k, o, owner, r2);
    } else if OnlyGenerates(ws, k) {
      GeneratesTwice(ws, k, o, owner, r1, r2);
    } else {
      var i :| 0 <= i < |ws| && Touches(ws[i], k) && !ws[i].Generated?;
      SingleWrite(ws, ws[i], k, o, owner, r1);
      SingleWrite(ws, ws[i], k, once, owner, r2);
      EffectTwice(ws[i], k, o, owner, r1, r2);
    }
  }

  /** Making a coherent list of writes a second time changes nothing in the store. */
  lemma ApplyAllTwice(s: Objects, ws: seq<Write>, owner: Request, r1: Random, r2: Random)
    requires Coherent(ws)
    ensures ApplyAll(ApplyAll(s, ws, owner, r1), ws, owner, r2) == ApplyAll(s, ws, owner, r1)
  {
    var once := ApplyAll(s, ws, owner, r1);
    var twice := ApplyAll(once, ws, owner, r2);
    forall k ensures At(twice, k) == At(once, k) {
      ApplyAllAt(s, ws, k, owner, r1);
      ApplyAllAt(once, ws, k, owner, r2);
      EffectAllTwice(ws, k, At(s, k), owner, r1, r2);
    }
    SameEverywhere(twice, once);
  }

  /** A write that does not touch the key may be left out. */
  lemma {:induction false} SkipUntouching(a: seq<Write>, w: Write, b: seq<Write>, k: Key, o: Option<Stored>, owner: Request, random: Random)
    requires !Touches(w, k)
    ensures EffectAll(a + [w] + b, k, o, owner, random) == EffectAll(a + b, k, o, owner, random)
  {
    if b == [] {
      assert a + [w] + b == a + [w] && a + b == a && (a + [w])[..|a|] == a;
    } else {
      var n := |b| - 1;
      SkipUntouching(a, w, b[..n], k, o, owner, random);
      assert (a + [w] + b)[..|a| + 1 + n] == a + [w] + b[..n] && (a + b)[..|a| + n] == a + b[..n];
    }
  }

  /**
    Leaving out a write the second time changes nothing, if the second writes are otherwise the first ones and no two
    of them conflict.
  */
  lemma ApplyOnceMore(s: Objects, a: seq<Write>, w: Write, b: seq<Write>, owner: Request, r1: Random, r2: Random)
    requires Coherent(a + [w] + b) && !w.Generated?
    ensures ApplyAll(ApplyAll(s, a + [w] + b, owner, r1), a + b, owner, r2) == ApplyAll(s, a + [w] + b, owner, r1)
  {
    var ws := a + [w] + b;
    var once := ApplyAll(s, ws, owner, r1);
    var twice := ApplyAll(once, a + b, owner, r2);
    forall k ensures At(twice, k) == At(once, k) {
      ApplyAllAt(s, ws, k, owner, r1);
      ApplyAllAt(once, a + b, k, owner, r2);
      if Touches(w, k) {
        OnlyThisWrite(a, w, b, k);
        SingleWrite(ws, w, k, At(s, k), owner, r1);
        SingleWrite(a + b, w, k, At(once, k), owner, r2);
        EffectTwice(w, k, At(s, k), owner, r1, r2);
      } else {
        SkipUntouching(a, w, b, k, At(once, k), owner, r2);
        EffectAllTwice(ws, k, At(s, k), owner, r1, r2);
      }
    }
    SameEverywhere(twice, once);
  }

  lemma OnlyThisWrite(a: seq<Write>, w: Write, b: seq<Write>, k: Key)
    requires Coherent(a + [w] + b) && !w.Generated? && Touches(w, k)
    ensures Touched(a + [w] + b, k)
    ensures forall i | 0 <= i < |a + [w] + b| && Touches((a + [w] + b)[i], k) :: (a + [w] + b)[i] == w
    ensures forall i | 0 <= i < |a + b| && Touches((a + b)[i], k) :: (a + b)[i] == w
  {
    var ws := a + [w] + b;
    assert ws[|a|] == w;
    forall i | 0 <= i < |a + b| && Touches((a + b)[i], k) ensures (a + b)[i] == w {
      assert (a + b)[i] == ws[if i < |a| then i else i + 1];
    }
  }

  /** Other writes of a list to the keys of this one are this one. */
  ghost predicate StandsAlone(ws: seq<Write>, i: nat)
    requires i < |ws|
  {
    forall j, k | 0 <= j < |ws| && Touches(ws[i], k) && Touches(ws[j], k) :: ws[j] == ws[i]
  }

  /** If a list of writes changes nothing, neither does a single one of them that stands alone. */
  lemma SingleWriteIdle(s: Objects, ws: seq<Write>, i: nat, owner: Request, random: Random)
    requires i < |ws| && StandsAlone(ws, i) && ApplyAll(s, ws, owner, random) == s
    ensures Apply(s, ws[i], owner, random) == s
  {
    forall k ensures At(Apply(s, ws[i], owner, random), k) == At(s, k) {
      ApplyAt(s, ws[i], k, owner, random);
      if Touches(ws[i], k) {
        ApplyAllAt(s, ws, k, owner, random);
        SingleWrite(ws, ws[i], k, At(s, k), owner, random);
      }
    }
    SameEverywhere(Apply(s, ws[i], owner, random), s);
  }

  /** Lists of writes commute at every key that only one of them touches. */
  lemma ApplyAllCommute(s: Objects, a: seq<Write>, x: Request, b: seq<Write>, y: Request, r1: Random, r2: Random, k: Key)
    requires !Touched(a, k) || !Touched(b, k)
    ensures At(ApplyAll(ApplyAll(s, a, x, r1), b, y, r2), k) == At(ApplyAll(ApplyAll(s, b, y, r2), a, x, r1), k)
  {
    var sa, sb := ApplyAll(s, a, x, r1), ApplyAll(s, b, y, r2);
    ApplyAllAt(s, a, k, x, r1);
    ApplyAllAt(s, b, k, y, r2);
    ApplyAllAt(sa, b, k, y, r2);
    ApplyAllAt(sb, a, k, x, r1);
    if !Touched(a, k) {
      UntouchedStays(a, k, At(s, k), x, r1);
      UntouchedStays(a, k, At(sb, k), x, r1);
    } else {
      UntouchedStays(b, k, At(s, k), y, r2);
      UntouchedStays(b, k, At(sa, k), y, r2);
    }
  }
}
