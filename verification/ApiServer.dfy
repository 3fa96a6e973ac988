/**
  The `CreateOrUpdate*` wrappers against the API server: each changes the store in place, and its effect is the one
  write it stands for.
*/
module ApiServer {
  import opened GoMaps
  import opened Json
  import opened LastApplied
  import opened ObjectNames
  import opened Options
  import opened Store

  lemma ApplySingle(s: Objects, w: Write, owner: Request, random: Random)
    requires !w.Generated?
    ensures Apply(s, w, owner, random) == match Effect(w, w.key, At(s, w.key), owner, random)
                                         case None => s - {w.key}
                                         case Some(o) => s[w.key := o]
  {
    var t := match Effect(w, w.key, At(s, w.key), owner, random) case None => s - {w.key} case Some(o) => s[w.key := o];
    forall k ensures At(t, k) == At(Apply(s, w, owner, random), k) { ApplyAt(s, w, k, owner, random); }
    SameEverywhere(t, Apply(s, w, owner, random));
  }

  /** Objects after each of a list of writes. */
  ghost predicate IsHistory(states: seq<Objects>, ws: seq<Write>, owner: Request, random: Random)
  {
    |states| == |ws| + 1 && forall i | 0 <= i < |ws| :: states[i + 1] == Apply(states[i], ws[i], owner, random)
  }

  lemma {:induction false} HistoryApplies(states: seq<Objects>, ws: seq<Write>, owner: Request, random: Random)
    requires IsHistory(states, ws, owner, random)
    ensures states[|ws|] == ApplyAll(states[0], ws, owner, random)
  {
    if ws != [] {
      var n := |ws| - 1;
      assert IsHistory(states[..|ws|], ws[..n], owner, random);
      HistoryApplies(states[..|ws|], ws[..n], owner, random);
    }
  }

  lemma PlainIsUnrecorded(annotations: map<string, string>)
    ensures Plainly(annotations) - Owned(Plainly(annotations)) == Plainly(annotations)
  {}

  lemma FilledNext(stored: map<string, string>, name: string, keys: seq<string>, i: nat, random: Random)
    requires i < |keys|
    ensures var data, key := Filled(stored, name, keys[..i], random), keys[i];
            Filled(stored, name, keys[..i + 1], random) == if key in data then data else data[key := random(name, key)]
  {
    assert forall k :: k in keys[..i + 1] <==> k in keys[..i] || k == keys[i];
  }

  class ApiServer {
    var objects: Objects

    // the reconcile under way: on whose behalf, with what generated values, and what it has written so far
    var owner: Request
    var random: Random
    ghost var states: seq<Objects>
    ghost var log: seq<Write>

    ghost predicate Valid()
      reads this
    {
      IsHistory(states, log, owner, random) && objects == states[|log|]
    }

    constructor (objects: Objects, owner: Request, random: Random)
      ensures Valid() && this.objects == objects
    {
      this.objects, this.owner, this.random := objects, owner, random;
      states, log := [objects], [];
    }

    method Begin(owner: Request, random: Random)
      modifies this
      ensures Valid() && objects == old(objects) && states == [objects] && log == [] && this.owner == owner && this.random == random
    {
      this.owner, this.random, states, log := owner, random, [objects], [];
    }

    /** The reconcile under way has made the further writes `ws`. */
    twostate predicate Wrote(ws: seq<Write>)
      reads this
    {
      Valid() && log == old(log) + ws && old(states) <= states
    }

    ghost method Record(w: Write)
      requires IsHistory(states, log, owner, random) && objects == Apply(states[|log|], w, owner, random)
      modifies this`log, this`states
      ensures Wrote([w]) && objects == old(objects)
    {
      states, log := states + [objects], log + [w];
    }

    /**
      The mutate function of the merging wrappers, on a copy of the live object or, if there is none, on the wanted
      object itself, whose annotations are the resource's own map.  An error means that nothing is to be written.
    */
    method Mutate(live: Option<Stored>, spec: Spec, annotations: GoMap?<Value>, ghost w: Write, mode: Mode, retain: bool)
        returns (result: Result<Stored, MergeError>)
      requires w.Merged? && w.spec == spec && w.mode == mode && w.retain == retain
      requires Contents(annotations) == Plainly(w.annotations)
      modifies annotations
      ensures live.Some? && annotations != null ==> annotations.m == old(annotations.m)
      ensures AfterMerge(live, owner, w) == if result.Ok? then Some(result.value) else live
    {
      if live.Some? {
        result := MutateLive(live.value, spec, annotations, w, mode, retain);
      } else {
        result := MutateNew(spec, annotations, w, mode, retain);
      }
    }

    method MutateLive(live: Stored, spec: Spec, annotations: GoMap?<Value>, ghost w: Write, mode: Mode, retain: bool)
        returns (result: Result<Stored, MergeError>)
      requires w.Merged? && w.spec == spec && w.mode == mode && w.retain == retain
      requires Contents(annotations) == Plainly(w.annotations)
      ensures AfterMerge(Some(live), owner, w) == if result.Ok? then Some(result.value) else Some(live)
    {
      var copy := new GoMap<Value>(live.annotations);
      var obj := new LiveObject(copy, live.body);
      var controller := Adopt(live.controller, owner, retain);
      var merged := MergeSpecs(obj, spec, annotations);
      if merged.Err? { return Err(merged.error); }
      obj.spec := Adjusted(mode, live.body, spec, obj.spec);
      return Ok(Stored(obj.annotations.m, controller, obj.spec, live.data));
    }

    method MutateNew(spec: Spec, annotations: GoMap?<Value>, ghost w: Write, mode: Mode, retain: bool)
        returns (result: Result<Stored, MergeError>)
      requires w.Merged? && w.spec == spec && w.mode == mode && w.retain == retain
      requires Contents(annotations) == Plainly(w.annotations)
      modifies annotations
      ensures AfterMerge(None, owner, w) == if result.Ok? then Some(result.value) else None
    {
      PlainIsUnrecorded(w.annotations);
      var obj := new LiveObject(annotations, spec);
      var controller := Adopt(None, owner, retain);
      var merged := MergeSpecs(obj, spec, annotations);
      assert obj.annotations.m == Stamped(Plainly(w.annotations), Plainly(w.annotations), spec);
      if merged.Err? { return Err(merged.error); }
      obj.spec := Adjusted(mode, spec, spec, obj.spec);
      return Ok(Stored(obj.annotations.m, controller, obj.spec, map[]));
    }

    /** Deployments, DaemonSets, StatefulSets, claims, Services and Ingresses. */
    method CreateOrUpdateMerged(key: Key, spec: Spec, annotations: GoMap?<Value>, ghost plain: map<string, string>, mode: Mode, retain: bool)
      requires Valid() && Contents(annotations) == Plainly(plain)
      modifies this`objects, this`log, this`states, annotations
      ensures Wrote([Merged(key, spec, plain, mode, retain)])
      ensures key in old(objects) && annotations != null ==> annotations.m == old(annotations.m)
    {
      ghost var w := Merged(key, spec, plain, mode, retain);
      ApplySingle(objects, w, owner, random);
      var live := At(objects, key);
      var result := Mutate(live, spec, annotations, w, mode, retain);
      if result.Ok? {
        objects := objects[key := result.value];
      }
      Record(w);
    }

    /** Roles and ConfigMaps: the content is overwritten. */
    method CreateOrUpdateReplaced(key: Key, content: Body, retain: bool)
      requires Valid()
      modifies this`objects, this`log, this`states
      ensures Wrote([Replaced(key, content, retain)])
    {
      ghost var w := Replaced(key, content, retain);
      ApplySingle(objects, w, owner, random);
      var live := if key in objects then objects[key] else Stored(map[], None, content, map[]);
      objects := objects[key := live.(controller := Adopt(live.controller, owner, retain), body := content)];
      Record(w);
    }

    /** Service accounts and bindings: an existing object keeps its content. */
    method CreateOrUpdateEnsured(key: Key, content: Body, retain: bool)
      requires Valid()
      modifies this`objects, this`log, this`states
      ensures Wrote([Ensured(key, content, retain)])
    {
      ghost var w := Ensured(key, content, retain);
      ApplySingle(objects, w, owner, random);
      var live := if key in objects then objects[key] else Stored(map[], None, content, map[]);
      objects := objects[key := live.(controller := Adopt(live.controller, owner, retain))];
      Record(w);
    }

    method DeleteObject(key: Key)
      requires Valid()
      modifies this`objects, this`log, this`states
      ensures Wrote([Removed(key)])
    {
      ghost var w := Removed(key);
      ApplySingle(objects, w, owner, random);
      objects := objects - {key};
      Record(w);
    }

    method FillKeys(stored: map<string, string>, name: string, keys: seq<string>) returns (data: map<string, string>)
      ensures data == Filled(stored, name, keys, random)
    {
      data := stored;
      for i := 0 to |keys|
        invariant data == Filled(stored, name, keys[..i], random)
      {
        FilledNext(stored, name, keys, i, random);
        if keys[i] !in data {
          data := data[keys[i] := random(name, keys[i])];
        }
      }
      assert keys[..|keys|] == keys;
    }

    /** One secret: missing keys get a generated value. */
    method CreateOrUpdateSecret(ns: string, name: string, keys: seq<string>, retain: bool)
      modifies this`objects
      ensures forall k :: At(objects, k) == Effect(Generated(ns, map[name := keys], retain), k, At(old(objects), k), owner, random)
    {
      if |keys| == 0 { return; }
      var key := Key(Secret, ns, name);
      var live := if key in objects then objects[key] else Stored(map[], None, EMPTY, map[]);
      var data := FillKeys(live.data, name, keys);
      objects := objects[key := live.(controller := Adopt(live.controller, owner, retain), data := data)];
    }

    /** `for name, keys := range secrets { CreateOrUpdateSecret }`, in any order. */
    method GenerateSecrets(ns: string, secrets: map<string, seq<string>>, retain: bool)
      requires Valid()
      modifies this`objects, this`log, this`states
      ensures Wrote([Generated(ns, secrets, retain)])
    {
      ghost var w := Generated(ns, secrets, retain);
      ghost var before := objects;
      var rest := secrets.Keys;
      while rest != {}
        invariant rest <= secrets.Keys
        invariant log == old(log) && states == old(states)
        invariant forall k :: At(objects, k) == if Touches(w, k) && k.name !in rest then Effect(w, k, At(before, k), owner, random) else At(before, k)
        decreases rest
      {
        var name :| name in rest;
        CreateOrUpdateSecret(ns, name, secrets[name], retain);
        rest := rest - {name};
      }
      forall k ensures At(objects, k) == At(Apply(before, w, owner, random), k) { ApplyAt(before, w, k, owner, random); }
      SameEverywhere(objects, Apply(before, w, owner, random));
      Record(w);
    }

    /** Makes one write through the wrapper of its kind. */
    method Make(w: Write)
      requires Valid()
      modifies this`objects, this`log, this`states
      ensures Wrote([w])
    {
      match w
      case Merged(key, spec, plain, mode, retain) =>
        var annotations := new GoMap<Value>(Plainly(plain));
        CreateOrUpdateMerged(key, spec, annotations, plain, mode, retain);
      case Replaced(key, content, retain) => CreateOrUpdateReplaced(key, content, retain);
      case Ensured(key, content, retain) => CreateOrUpdateEnsured(key, content, retain);
      case Generated(ns, secrets, retain) => GenerateSecrets(ns, secrets, retain);
      case Removed(key) => DeleteObject(key);
    }
  }
}
