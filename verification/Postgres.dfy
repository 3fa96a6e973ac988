/**
  The Postgres connection string: defaults are written into the parameter map in place, and the map is then
  listed in arbitrary order and sorted.
*/
module Postgres {
  import opened GoMaps
  import opened Options
  import opened Sorting
  import opened Text

  datatype PostgresSpec = PostgresSpec(host: string, port: int, user: string, database: string, params: GoMap?<string>)

  /** The parameters given by fields of their own. */
  function Explicit(p: PostgresSpec, passwordEnvVar: string): map<string, string>
  {
    var address := if p.port > 0 then map["host" := p.host]["port" := Decimal(p.port)] else map["host" := p.host];
    address["user" := p.user]["password" := "$(" + passwordEnvVar + ")"]["dbname" := p.database]
  }

  /** The parameters after the explicit fields and the default are filled in. */
  function Effective(p: PostgresSpec, params: map<string, string>, passwordEnvVar: string): map<string, string>
  {
    var kv := params + Explicit(p, passwordEnvVar);
    if "sslmode" in kv && kv["sslmode"] != "" then kv else kv["sslmode" := "disable"]
  }

  function Pair(k: string, v: string): string { k + "='" + v + "'" }

  function Rendering(kv: map<string, string>): string -> string
  {
    k => if k in kv then Pair(k, kv[k]) else ""
  }

  function NonEmpty(kv: map<string, string>): set<string>
  {
    set k | k in kv && kv[k] != ""
  }

  function Self(s: string): string { s }

  /** The text obtained by visiting the non-empty parameters in the given order. */
  function TextInOrder(kv: map<string, string>, order: seq<string>): string
  {
    Join(SortBy(Mapped(order, Rendering(kv)), Self), " ")
  }

  /** The visiting order does not matter. */
  lemma OrderIrrelevant(kv: map<string, string>, a: seq<string>, b: seq<string>)
    requires Lists(a, NonEmpty(kv)) && Lists(b, NonEmpty(kv))
    ensures TextInOrder(kv, a) == TextInOrder(kv, b)
  {
    OrdersProduceSame(a, b, NonEmpty(kv), Rendering(kv));
    SortByPermutation(Mapped(a, Rendering(kv)), Mapped(b, Rendering(kv)), Self);
  }

  method FillIn(kv: GoMap<string>, p: PostgresSpec, passwordEnvVar: string)
    modifies kv
    ensures kv.m == Effective(p, old(kv.m), passwordEnvVar)
  {
    ghost var params := kv.m;
    ghost var ex: map<string, string> := map[];
    assert params + ex == params;
    AddLast(params, ex, "host", p.host);
    kv.m, ex := kv.m["host" := p.host], ex["host" := p.host];
    if p.port > 0 {
      AddLast(params, ex, "port", Decimal(p.port));
      kv.m, ex := kv.m["port" := Decimal(p.port)], ex["port" := Decimal(p.port)];
    }
    AddLast(params, ex, "user", p.user);
    kv.m, ex := kv.m["user" := p.user], ex["user" := p.user];
    AddLast(params, ex, "password", "$(" + passwordEnvVar + ")");
    kv.m, ex := kv.m["password" := "$(" + passwordEnvVar + ")"], ex["password" := "$(" + passwordEnvVar + ")"];
    AddLast(params, ex, "dbname", p.database);
    kv.m, ex := kv.m["dbname" := p.database], ex["dbname" := p.database];
    assert kv.m == params + Explicit(p, passwordEnvVar);
    if "sslmode" !in kv.m || kv.m["sslmode"] == "" { kv.m := kv.m["sslmode" := "disable"]; }
  }

  lemma AddLast(m: map<string, string>, n: map<string, string>, k: string, v: string)
    ensures (m + n)[k := v] == m + n[k := v]
  {}

  /** `for k, v := range kv { if v != "" { append } }` */
  method Pairs(kv: map<string, string>) returns (kvs: seq<string>, ghost order: seq<string>)
    ensures Lists(order, NonEmpty(kv)) && kvs == Mapped(order, Rendering(kv))
  {
    kvs, order := [], [];
    var rest := kv.Keys;
    while rest != {}
      invariant rest <= kv.Keys
      invariant Lists(order, NonEmpty(kv) - rest)
      invariant kvs == Mapped(order, Rendering(kv))
      decreases rest
    {
      var k :| k in rest;
      var v := kv[k];
      if v != "" {
        kvs := kvs + [Pair(k, v)];
        order := order + [k];
      }
      rest := rest - {k};
    }
  }

  method ConnectionString(p: PostgresSpec, passwordEnvVar: string) returns (text: string)
    modifies p.params
    ensures p.params != null ==> p.params.m == Effective(p, old(p.params.m), passwordEnvVar)
    ensures var kv := Effective(p, old(Contents(p.params)), passwordEnvVar);
            forall order | Lists(order, NonEmpty(kv)) :: text == TextInOrder(kv, order)
  {
    var kv := p.params;
    if kv == null { kv := new GoMap<string>(map[]); }
    FillIn(kv, p, passwordEnvVar);
    var kvs, order := Pairs(kv.m);
    text := Join(SortBy(kvs, Self), " ");
    forall other | Lists(other, NonEmpty(kv.m)) ensures text == TextInOrder(kv.m, other) {
      OrderIrrelevant(kv.m, order, other);
    }
  }

  /** Explicit fields override parameters, even when empty; a port only when it is given. */
  lemma ExplicitFieldsOverride(p: PostgresSpec, params: map<string, string>, passwordEnvVar: string)
    ensures var kv := Effective(p, params, passwordEnvVar);
            && {"host", "user", "password", "dbname", "sslmode"} <= kv.Keys
            && kv["host"] == p.host && kv["user"] == p.user && kv["dbname"] == p.database
            && kv["password"] == "$(" + passwordEnvVar + ")" 
            && (("sslmode" in params && params["sslmode"] != "") || kv["sslmode"] == "disable")
            && (p.port > 0 ==> "port" in kv && kv["port"] == Decimal(p.port))
            && (forall k | k in params && params[k] != "" && k !in {"host", "user", "password", "dbname"} && (k == "port" ==> p.port <= 0) ::
                  k in kv && kv[k] == params[k])
            && (forall k | k in kv :: k in params || k in {"host", "port", "user", "password", "dbname", "sslmode"})
  {}

  /** The map left behind by one call already is what the next call makes of it. */
  lemma SecondCallSame(p: PostgresSpec, params: map<string, string>, passwordEnvVar: string)
    ensures var kv := Effective(p, params, passwordEnvVar); Effective(p, kv, passwordEnvVar) == kv
  {}

  method CallTwice(p: PostgresSpec, passwordEnvVar: string) returns (first: string, second: string)
    modifies p.params
    ensures first == second
  {
    first := ConnectionString(p, passwordEnvVar);
    SecondCallSame(p, old(Contents(p.params)), passwordEnvVar);
    second := ConnectionString(p, passwordEnvVar);
    ghost var kv := Effective(p, old(Contents(p.params)), passwordEnvVar);
    ghost var order := ListKeys(NonEmpty(kv));
  }

  // ---- reading the text back ----

  /** Reads `k='v'`, separated by single spaces. */
  function ReadPairs(text: string): Option<seq<(string, string)>>
    decreases |text|
  {
    match UpTo(text, '=')
    case None => None
    case Some(k) =>
      var rest := text[|k| + 1..];
      if rest == "" || rest[0] != '\'' then None
      else
        match UpTo(rest[1..], '\'')
        case None => None
        case Some(v) =>
          var tail := rest[|v| + 2..];
          if tail == "" then Some([(k, v)])
          else if tail[0] != ' ' then None
          else
            match ReadPairs(tail[1..])
            case None => None
            case Some(more) => Some([(k, v)] + more)
  }

  predicate IsPlainPair(p: (string, string)) { '=' !in p.0 && '\'' !in p.1 }

  function PairTexts(pairs: seq<(string, string)>): (texts: seq<string>)
    ensures |texts| == |pairs| && forall i | 0 <= i < |pairs| :: texts[i] == Pair(pairs[i].0, pairs[i].1)
  {
    seq(|pairs|, i requires 0 <= i < |pairs| => Pair(pairs[i].0, pairs[i].1))
  }

  /** Only plain pairs are ever read. */
  lemma {:induction false} ReadIsPlain(text: string)
    ensures ReadPairs(text).Some? ==> forall p | p in ReadPairs(text).value :: IsPlainPair(p)
    decreases |text|
  {
    if ReadPairs(text).Some? {
      var k := UpTo(text, '=').value;
      var rest := text[|k| + 1..];
      var v := UpTo(rest[1..], '\'').value;
      var tail := rest[|v| + 2..];
      if tail != "" { ReadIsPlain(tail[1..]); }
    }
  }

  lemma ReadKey(k: string, rest: string)
    requires '=' !in k
    ensures UpTo(k + "=" + rest, '=') == Some(k) && (k + "=" + rest)[|k| + 1..] == rest
  {
    UpToFirst(k, rest, '=');
  }

  lemma ReadValue(v: string, more: string)
    requires '\'' !in v
    ensures var rest := "'" + v + "'" + more;
            rest != "" && rest[0] == '\'' && UpTo(rest[1..], '\'') == Some(v) && rest[|v| + 2..] == more
  {
    UpToFirst(v, more, '\'');
    assert ("'" + v + "'" + more)[1..] == v + "'" + more;
  }

  lemma ReadFirst(k: string, v: string, more: string)
    requires IsPlainPair((k, v))
    ensures ReadPairs(Pair(k, v) + more)
         == if more == "" then Some([(k, v)])
            else if more[0] != ' ' || ReadPairs(more[1..]).None? then None else Some([(k, v)] + ReadPairs(more[1..]).value)
  {
    var rest := "'" + v + "'" + more;
    PairThen(k, v, more);
    ReadKey(k, rest);
    ReadValue(v, more);
  }

  lemma PairThen(k: string, v: string, more: string)
    ensures Pair(k, v) + more == k + "=" + ("'" + v + "'" + more)
  {
    assert k + "='" + v + "'" + more == k + "=" + ("'" + v + "'" + more);
  }

  /** Joined plain pairs are read back. */
  lemma {:induction false} JoinedReadBack(pairs: seq<(string, string)>)
    requires pairs != [] && forall p | p in pairs :: IsPlainPair(p)
    ensures ReadPairs(Join(PairTexts(pairs), " ")) == Some(pairs)
  {
    var texts, p := PairTexts(pairs), pairs[0];
    if |pairs| == 1 {
      ReadFirst(p.0, p.1, "");
      assert Pair(p.0, p.1) + "" == Pair(p.0, p.1) && pairs == [p];
    } else {
      var rest := Join(PairTexts(pairs[1..]), " ");
      JoinedReadBack(pairs[1..]);
      ReadFirst(p.0, p.1, " " + rest);
      JoinFirst(pairs);
      assert (" " + rest)[1..] == rest && pairs == [p] + pairs[1..];
    }
  }

  lemma JoinFirst(pairs: seq<(string, string)>)
    requires |pairs| >= 2
    ensures Join(PairTexts(pairs), " ") == Pair(pairs[0].0, pairs[0].1) + (" " + Join(PairTexts(pairs[1..]), " "))
  {
    var texts := PairTexts(pairs);
    assert texts[1..] == PairTexts(pairs[1..]);
    assert texts[0] + " " + Join(texts[1..], " ") == texts[0] + (" " + Join(texts[1..], " "));
  }

  /** The pairs are the non-empty parameters, each once. */
  ghost predicate ListsParameters(pairs: seq<(string, string)>, kv: map<string, string>)
  {
    |pairs| == |NonEmpty(kv)| && forall k, v :: (k, v) in pairs <==> k in kv && kv[k] == v && v != ""
  }

  /** No key holds an equals sign, and no value a quote. */
  predicate ReadsBack(kv: map<string, string>) { forall k | k in kv && kv[k] != "" :: '=' !in k && '\'' !in kv[k] }

  /** The text is that of a non-empty parameter. */
  predicate IsRendered(t: string, kv: map<string, string>)
  {
    exists k | k in NonEmpty(kv) :: t == Pair(k, kv[k])
  }

  lemma {:induction false} PairsOfTexts(texts: seq<string>, kv: map<string, string>) returns (pairs: seq<(string, string)>)
    requires forall t | t in texts :: IsRendered(t, kv)
    ensures PairTexts(pairs) == texts && forall p | p in pairs :: p.0 in NonEmpty(kv) && kv[p.0] == p.1
  {
    if texts == [] {
      pairs := [];
    } else {
      assert IsRendered(texts[0], kv);
      var k :| k in NonEmpty(kv) && texts[0] == Pair(k, kv[k]);
      var more := PairsOfTexts(texts[1..], kv);
      pairs := [(k, kv[k])] + more;
      assert PairTexts(pairs) == [texts[0]] + PairTexts(more) && texts == [texts[0]] + texts[1..];
    }
  }

  lemma SortedTexts(kv: map<string, string>, order: seq<string>) returns (pairs: seq<(string, string)>)
    requires Lists(order, NonEmpty(kv))
    ensures TextInOrder(kv, order) == Join(PairTexts(pairs), " ") && |pairs| == |NonEmpty(kv)|
    ensures forall p | p in pairs :: p.0 in NonEmpty(kv) && kv[p.0] == p.1
    ensures forall k | k in NonEmpty(kv) :: Pair(k, kv[k]) in PairTexts(pairs)
  {
    var texts := Mapped(order, Rendering(kv));
    var sorted := SortBy(texts, Self);
    forall t ensures t in sorted <==> t in texts {
      assert t in sorted <==> t in multiset(sorted);
      assert t in texts <==> t in multiset(texts);
    }
    forall t | t in sorted ensures IsRendered(t, kv) {
      var i :| 0 <= i < |texts| && texts[i] == t;
      assert order[i] in order && t == Pair(order[i], kv[order[i]]);
    }
    pairs := PairsOfTexts(sorted, kv);
    ListsLength(order, NonEmpty(kv));
    forall k | k in NonEmpty(kv) ensures Pair(k, kv[k]) in PairTexts(pairs) {
      var i := Position(order, k, NonEmpty(kv));
      assert texts[i] == Pair(k, kv[k]);
    }
  }

  lemma PlainPairInjective(k: string, v: string, l: string, w: string)
    requires '=' !in k && '=' !in l && Pair(k, v) == Pair(l, w)
    ensures k == l && v == w
  {
    UpToFirst(k, "'" + v + "'", '=');
    UpToFirst(l, "'" + w + "'", '=');
    assert Pair(k, v) == k + ['='] + ("'" + v + "'") && Pair(l, w) == l + ['='] + ("'" + w + "'");
    assert Pair(k, v)[|k| + 2..|Pair(k, v)| - 1] == v && Pair(l, w)[|l| + 2..|Pair(l, w)| - 1] == w;
  }

  /** The text is read back as the non-empty parameters exactly if none of them holds a separator of its own. */
  lemma TextReadsBackIff(kv: map<string, string>, order: seq<string>)
    requires Lists(order, NonEmpty(kv)) && NonEmpty(kv) != {}
    ensures (ReadPairs(TextInOrder(kv, order)).Some? && ListsParameters(ReadPairs(TextInOrder(kv, order)).value, kv)) <==> ReadsBack(kv)
  {
    var text := TextInOrder(kv, order);
    if ReadsBack(kv) {
      PlainTextReadsBack(kv, order);
    } else if ReadPairs(text).Some? && ListsParameters(ReadPairs(text).value, kv) {
      var k :| k in NonEmpty(kv) && ('=' in k || '\'' in kv[k]);
      ReadIsPlain(text);
      NotPlain(ReadPairs(text).value, kv, k);
    }
  }

  lemma NotPlain(pairs: seq<(string, string)>, kv: map<string, string>, k: string)
    requires ListsParameters(pairs, kv) && k in NonEmpty(kv) && forall p | p in pairs :: IsPlainPair(p)
    ensures '=' !in k && '\'' !in kv[k]
  {
    assert (k, kv[k]) in pairs;
  }

  lemma PlainTextReadsBack(kv: map<string, string>, order: seq<string>)
    requires Lists(order, NonEmpty(kv)) && NonEmpty(kv) != {} && ReadsBack(kv)
    ensures ReadPairs(TextInOrder(kv, order)).Some? && ListsParameters(ReadPairs(TextInOrder(kv, order)).value, kv)
  {
    var pairs := SortedTexts(kv, order);
    forall p | p in pairs ensures IsPlainPair(p) { assert p.0 in NonEmpty(kv); }
    JoinedReadBack(pairs);
    forall k | k in NonEmpty(kv) ensures (k, kv[k]) in pairs { PairListed(pairs, k, kv[k]); }
    assert forall k, v | (k, v) in pairs :: (k, v).0 in NonEmpty(kv) && kv[(k, v).0] == (k, v).1;
  }

  lemma PairListed(pairs: seq<(string, string)>, k: string, v: string)
    requires (forall p | p in pairs :: IsPlainPair(p)) && '=' !in k && Pair(k, v) in PairTexts(pairs)
    ensures (k, v) in pairs
  {
    var i :| 0 <= i < |pairs| && PairTexts(pairs)[i] == Pair(k, v);
    assert pairs[i] in pairs;
    PlainPairInjective(pairs[i].0, pairs[i].1, k, v);
  }

  /** Two different sets of parameters with one text: a quote in a value passes for the end of it. */
  lemma QuotesMislead()
    ensures TextInOrder(map["a" := "x' b='y"], ["a"]) == TextInOrder(map["a" := "x", "b" := "y"], ["a", "b"])
  {
    OneParameter("a", "x' b='y");
    TwoParameters("a", "x", "b", "y");
    assert "x" + "'" + " " + "b" + "='" + "y" == "x' b='y";
    SameText("a", "x", "b", "y", "x' b='y");
  }

  lemma SameText(k: string, v: string, l: string, w: string, both: string)
    requires both == v + "'" + " " + l + "='" + w
    ensures Pair(k, v) + " " + Pair(l, w) == Pair(k, both)
  {
    assert k + "='" + v + "'" + " " + (l + "='" + w + "'") == k + "='" + (v + "'" + " " + l + "='" + w) + "'";
  }

  lemma OneParameter(k: string, v: string)
    ensures TextInOrder(map[k := v], [k]) == Pair(k, v)
  {
    assert Mapped([k], Rendering(map[k := v])) == [Pair(k, v)];
    SortSingle(Pair(k, v));
  }

  lemma TwoParameters(k: string, v: string, l: string, w: string)
    requires k != "" && l != "" && k[0] < l[0]
    ensures TextInOrder(map[k := v, l := w], [k, l]) == Pair(k, v) + " " + Pair(l, w)
  {
    assert Mapped([k, l], Rendering(map[k := v, l := w])) == [Pair(k, v), Pair(l, w)];
    assert Pair(k, v)[0] == k[0] && Pair(l, w)[0] == l[0];
    SortPair(Pair(k, v), Pair(l, w));
    JoinPair(Pair(k, v), Pair(l, w), " ");
  }

  lemma JoinPair(t: string, u: string, separator: string)
    ensures Join([t, u], separator) == t + separator + u
  {
    assert [t, u][1..] == [u];
  }

  lemma SortSingle(t: string)
    ensures SortBy([t], Self) == [t]
  {
    assert [t][1..] == [];
  }

  lemma SortPair(t: string, u: string)
    requires t != "" && u != "" && t[0] < u[0]
    ensures SortBy([t, u], Self) == [t, u]
  {
    SortSingle(u);
    assert [t, u][1..] == [u];
    assert SortBy([t, u], Self) == Insert(t, [u], Self);
  }
}
