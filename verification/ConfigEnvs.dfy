/**
  Environment variables through which the generated configuration refers to secrets.  Their names are
  checksums of the secret selectors.
*/
module ConfigEnvs {
  import opened Checksum
  import opened Collisions
  import opened Options
  import opened Resource
  import opened Sorting
  import opened Text

  function SelectorText(s: Selector): string { s.name + "/" + s.key }

  function EnvName(s: Selector): string { "COROOT_CONFIG_SECRET_" + Hex(Crc32(SelectorText(s))) }

  function Reference(name: string): string { "${" + name + "}" }

  /** The name that a text refers to, as whoever expands it reads it: between `${` and the closing brace. */
  function ReadReference(text: string): Option<string>
  {
    if |text| >= 2 && text[..2] == "${" then UpTo(text[2..], '}') else None
  }

  lemma HexIsPlain(n: nat)
    ensures '}' !in Hex(n)
  {
    var s := Hex(n);
    forall i | 0 <= i < |s| ensures s[i] != '}' {
      assert s[i] in DIGITS[..16];
    }
  }

  /** A name is the prefix and the checksum of its selector, in hexadecimal digits. */
  lemma EnvNameText(s: Selector)
    ensures |EnvName(s)| > 21 && EnvName(s)[..21] == "COROOT_CONFIG_SECRET_"
    ensures Read(EnvName(s)[21..], 16) == Crc32(SelectorText(s)) && '}' !in EnvName(s)
  {
    var digits := Hex(Crc32(SelectorText(s)));
    ReadPrint(Crc32(SelectorText(s)), 16);
    HexIsPlain(Crc32(SelectorText(s)));
    assert EnvName(s)[21..] == digits;
  }

  /** What is written as a reference is read as the name. */
  lemma ReferenceReadsBack(name: string)
    requires '}' !in name
    ensures ReadReference(Reference(name)) == Some(name)
  {
    var text := Reference(name);
    assert text[..2] == "${" && text[2..] == name + "}" + "";
    UpToFirst(name, "", '}');
  }

  datatype EnvVar = EnvVar(name: string, selector: Selector)

  function NameOfEnv(e: EnvVar): string { e.name }

  /** A list sorted by name without repeated names, holding exactly the entries. */
  ghost predicate ListsStrictly(envs: seq<EnvVar>, entries: map<string, Selector>)
  {
    && SortedBy(envs, NameOfEnv)
    && (forall i, j | 0 <= i < j < |envs| :: envs[i].name != envs[j].name)
    && (forall i | 0 <= i < |envs| :: envs[i].name in entries && envs[i].selector == entries[envs[i].name])
    && (forall name | name in entries :: EnvVar(name, entries[name]) in envs)
  }

  class ConfigEnvs {
    var entries: map<string, Selector>

    constructor ()
      ensures entries == map[]
    {
      entries := map[];
    }

    method Add(selector: Selector) returns (reference: string)
      modifies this
      ensures entries == old(entries)[EnvName(selector) := selector]
      ensures reference == Reference(EnvName(selector)) && ReadReference(reference) == Some(EnvName(selector))
    {
      EnvNameText(selector);
      ReferenceReadsBack(EnvName(selector));
      var name := EnvName(selector);
      entries := entries[name := selector];
      reference := Reference(name);
    }

    /** `for name, selector := range ce`, then sort.Slice by name. */
    method List() returns (envs: seq<EnvVar>)
      ensures ListsStrictly(envs, entries)
    {
      envs := [];
      var rest := entries.Keys;
      while rest != {}
        invariant rest <= entries.Keys
        invariant Unsorted(envs, entries, rest)
        decreases rest
      {
        var name :| name in rest;
        envs := envs + [EnvVar(name, entries[name])];
        rest := rest - {name};
      }
      ghost var unsorted := envs;
      envs := SortBy(envs, NameOfEnv);
      SortBySorted(unsorted, NameOfEnv);
      SortKeepsEntries(unsorted, envs, entries);
    }
  }

  /** The entries visited so far, each once. */
  ghost predicate Unsorted(envs: seq<EnvVar>, entries: map<string, Selector>, rest: set<string>)
  {
    && (forall i, j | 0 <= i < j < |envs| :: envs[i].name != envs[j].name)
    && (forall i | 0 <= i < |envs| ::
          envs[i].name in entries && envs[i].name !in rest && envs[i].selector == entries[envs[i].name])
    && (forall name | name in entries && name !in rest :: EnvVar(name, entries[name]) in envs)
  }

  lemma SortKeepsEntries(a: seq<EnvVar>, b: seq<EnvVar>, entries: map<string, Selector>)
    requires Unsorted(a, entries, {}) && SortedBy(b, NameOfEnv) && multiset(a) == multiset(b)
    ensures ListsStrictly(b, entries)
  {
    forall e ensures e in a <==> e in b {
      assert e in a <==> e in multiset(a);
      assert e in b <==> e in multiset(b);
    }
    forall i, j | 0 <= i < j < |b| ensures b[i].name != b[j].name {
      TwiceInSequence(b, i, j);
      OnceInSequence(a, entries, b[i]);
    }
    forall i | 0 <= i < |b| ensures b[i].name in entries && b[i].selector == entries[b[i].name] {
      assert b[i] in a;
    }
  }

  lemma TwiceInSequence(b: seq<EnvVar>, i: nat, j: nat)
    requires i < j < |b|
    ensures b[i] == b[j] ==> multiset(b)[b[i]] >= 2
  {
    assert b == b[..i] + [b[i]] + b[i + 1..j] + [b[j]] + b[j + 1..];
  }

  lemma {:induction false} OnceInSequence(a: seq<EnvVar>, entries: map<string, Selector>, e: EnvVar)
    requires Unsorted(a, entries, {}) && e in a
    ensures multiset(a)[e] == 1
    ensures forall x | x in a && x.name == e.name :: x == e
  {
    var i :| 0 <= i < |a| && a[i] == e;
    assert a == a[..i] + [a[i]] + a[i + 1..];
    assert e !in a[..i] && e !in a[i + 1..];
    assert e !in multiset(a[..i]) && e !in multiset(a[i + 1..]);
  }

  /** There is one such list: the visiting order of the map leaves no trace. */
  lemma ListIsUnique(a: seq<EnvVar>, b: seq<EnvVar>, entries: map<string, Selector>)
    requires ListsStrictly(a, entries) && ListsStrictly(b, entries)
    ensures a == b
  {
    assert Unsorted(a, entries, {}) && Unsorted(b, entries, {});
    forall e ensures multiset(a)[e] == multiset(b)[e] {
      if e.name in entries && e.selector == entries[e.name] {
        OnceInSequence(a, entries, e);
        OnceInSequence(b, entries, e);
      } else {
        assert e !in a && e !in b;
        assert e !in multiset(a) && e !in multiset(b);
      }
    }
    assert multiset(a) == multiset(b);
    forall x, y | x in multiset(a) && y in multiset(a) && NameOfEnv(x) == NameOfEnv(y) ensures x == y {
      assert x in a && y in a;
    }
    SortedListingUnique(a, b, NameOfEnv);
  }

  lemma SameEnvSameChecksum(a: Selector, b: Selector)
    ensures EnvName(a) == EnvName(b) ==> Crc32(SelectorText(a)) == Crc32(SelectorText(b))
  {
    if EnvName(a) == EnvName(b) {
      CancelPrefix("COROOT_CONFIG_SECRET_", Hex(Crc32(SelectorText(a))), Hex(Crc32(SelectorText(b))));
      PrintInjective(Crc32(SelectorText(a)), Crc32(SelectorText(b)), 16);
    }
  }

  /**
    Selectors of equally long texts that differ only within four consecutive bytes never share a variable.
  */
  lemma NearSelectorsSeparated(a: Selector, b: Selector, from: nat, to: nat)
    requires '/' !in a.key && '/' !in b.key
    requires IsByteString(SelectorText(a)) && IsByteString(SelectorText(b))
    requires |SelectorText(a)| == |SelectorText(b)| && from <= to <= |SelectorText(a)| && to - from <= 4
    requires SelectorText(a)[..from] == SelectorText(b)[..from] && SelectorText(a)[to..] == SelectorText(b)[to..]
    ensures a != b ==> EnvName(a) != EnvName(b)
  {
    if EnvName(a) == EnvName(b) {
      SameEnvSameChecksum(a, b);
      NearTextsSeparated(SelectorText(a), SelectorText(b), from, to);
      LastCutUnique(a.name, a.key, b.name, b.key, '/');
    }
  }

  /** Five bytes apart is not near enough: two keys of one secret may share a variable. */
  lemma KeysCollide(secret: string)
    ensures var a, b := Selector(secret, COLLIDING_A), Selector(secret, COLLIDING_B);
            a != b && EnvName(a) == EnvName(b)
  {
    FiveBytesCollide(secret + "/", "");
    assert secret + "/" + COLLIDING_A + "" == SelectorText(Selector(secret, COLLIDING_A));
    assert secret + "/" + COLLIDING_B + "" == SelectorText(Selector(secret, COLLIDING_B));
    assert COLLIDING_A[0] != COLLIDING_B[0];
  }

  lemma NearTextsSeparated(s: string, t: string, from: nat, to: nat)
    requires IsByteString(s) && IsByteString(t)
    requires |s| == |t| && from <= to <= |s| && to - from <= 4
    requires s[..from] == t[..from] && s[to..] == t[to..]
    ensures s != t ==> Crc32(s) != Crc32(t)
  {
    var before, x, y, after := s[..from], s[from..to], t[from..to], s[to..];
    CutTwice(s, from, to);
    CutTwice(t, from, to);
    assert IsByteString(x) && IsByteString(y);
    assert s == before + x + after && t == before + y + after;
    BurstDetected(before, x, y, after);
  }

  lemma CutTwice(s: string, from: nat, to: nat)
    requires from <= to <= |s|
    ensures s == s[..from] + s[from..to] + s[to..]
  {}
}
