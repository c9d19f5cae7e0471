/** The scraper registry: routing by the longest registered suffix at a label boundary. */
module Registry {
  import opened Collections

  // Domains as dot-separated labels.

  /** `domain.split(".")`. */
  function Split(domain: string): (parts: seq<string>)
    ensures |parts| >= 1
    decreases |domain|
  {
    if '.' !in domain then [domain] else
    var i := IndexOfDot(domain);
    [domain[..i]] + Split(domain[i + 1..])
  }

  function IndexOfDot(s: string): (i: nat)
    requires '.' in s
    ensures i < |s| && s[i] == '.' && '.' !in s[..i]
  {
    if s[0] == '.' then 0 else
    assert s == [s[0]] + s[1..];
    1 + IndexOfDot(s[1..])
  }

  /** `".".join(parts)`. */
  function Join(parts: seq<string>): string
    requires |parts| >= 1
  {
    if |parts| == 1 then parts[0] else parts[0] + "." + Join(parts[1..])
  }

  lemma {:induction false} JoinSplit(domain: string)
    ensures Join(Split(domain)) == domain
    decreases |domain|
  {
    if '.' in domain {
      var i := IndexOfDot(domain);
      JoinSplit(domain[i + 1..]);
      assert domain == domain[..i] + "." + domain[i + 1..];
    }
  }

  /** `key` is `domain`, or what follows one of its dots. */
  predicate SuffixAt(domain: string, key: string) {
    domain == key || (|domain| > |key| && domain[|domain| - |key| - 1] == '.' && domain[|domain| - |key|..] == key)
  }

  function Tail(domain: string, i: nat): string
    requires i < |Split(domain)|
  {
    Join(Split(domain)[i..])
  }

  lemma SliceOfRest(s: string, a: nat, k: nat)
    requires a <= k <= |s|
    ensures s[a..][k - a..] == s[k..]
  {
  }

  lemma NoDotBefore(s: string, k: nat)
    requires '.' in s && k < |s| && s[k] == '.'
    ensures k >= IndexOfDot(s)
  {
    var d := IndexOfDot(s);
    assert forall i :: 0 <= i < d ==> s[..d][i] == s[i];
  }

  lemma DotIsSuffix(domain: string, key: string)
    requires '.' in domain && SuffixAt(domain, key) && domain != key
    ensures SuffixAt(domain[IndexOfDot(domain) + 1..], key)
  {
    var d, at := IndexOfDot(domain), |domain| - |key| - 1;
    NoDotBefore(domain, at);
    SliceOfRest(domain, d + 1, at + 1);
    if at > d {
      assert domain[d + 1..][at - d - 1] == domain[at];
    } else {
      assert at == d;
    }
  }

  lemma RestIsSuffix(domain: string, key: string)
    requires '.' in domain && SuffixAt(domain[IndexOfDot(domain) + 1..], key)
    ensures SuffixAt(domain, key)
  {
    var d := IndexOfDot(domain);
    var rest := domain[d + 1..];
    SliceOfRest(domain, d + 1, |domain| - |key|);
    assert rest != key ==> rest[|rest| - |key| - 1] == domain[|domain| - |key| - 1];
  }

  ghost predicate IsTail(domain: string, key: string) {
    exists i :: 0 <= i < |Split(domain)| && Tail(domain, i) == key
  }

  lemma TailsShift(domain: string, i: nat)
    requires '.' in domain
    ensures |Split(domain)| == |Split(domain[IndexOfDot(domain) + 1..])| + 1
    ensures i < |Split(domain[IndexOfDot(domain) + 1..])| ==>
      Tail(domain[IndexOfDot(domain) + 1..], i) == Tail(domain, i + 1)
  {
    var rest := Split(domain[IndexOfDot(domain) + 1..]);
    var head := domain[..IndexOfDot(domain)];
    assert Split(domain) == [head] + rest;
    assert i < |rest| ==> ([head] + rest)[i + 1..] == rest[i..];
  }

  lemma WholeIsTail(domain: string)
    ensures Tail(domain, 0) == domain
  {
    JoinSplit(domain);
    assert Split(domain)[0..] == Split(domain);
  }

  lemma TailBeyondDot(domain: string, key: string)
    requires '.' in domain
    ensures IsTail(domain, key) <==> domain == key || IsTail(domain[IndexOfDot(domain) + 1..], key)
  {
    var rest := domain[IndexOfDot(domain) + 1..];
    WholeIsTail(domain);
    TailsShift(domain, 0);
    if IsTail(domain, key) && domain != key {
      var i :| 0 <= i < |Split(domain)| && Tail(domain, i) == key;
      TailsShift(domain, i - 1);
      assert Tail(rest, i - 1) == key;
    }
    if IsTail(rest, key) {
      var i :| 0 <= i < |Split(rest)| && Tail(rest, i) == key;
      TailsShift(domain, i);
      assert Tail(domain, i + 1) == key;
    }
  }

  /** The suffixes of a domain at label boundaries are the joined tails of its labels. */
  lemma {:induction false} TailsAreSuffixes(domain: string, key: string)
    ensures SuffixAt(domain, key) <==> IsTail(domain, key)
    decreases |domain|
  {
    WholeIsTail(domain);
    if '.' in domain {
      var rest := domain[IndexOfDot(domain) + 1..];
      TailBeyondDot(domain, key);
      TailsAreSuffixes(rest, key);
      if SuffixAt(rest, key) {
        RestIsSuffix(domain, key);
      }
      if SuffixAt(domain, key) && domain != key {
        DotIsSuffix(domain, key);
      }
    }
  }

  /** Later tails are shorter. */
  lemma TailsShrink(domain: string, i: nat, j: nat)
    requires i < j < |Split(domain)|
    ensures |Tail(domain, j)| < |Tail(domain, i)|
  {
    JoinShrinks(Split(domain)[i..], j - i);
    assert Split(domain)[i..][j - i..] == Split(domain)[j..];
  }

  lemma {:induction false} JoinShrinks(parts: seq<string>, k: nat)
    requires 0 < k < |parts|
    ensures |Join(parts[k..])| < |Join(parts)|
  {
    if k > 1 {
      JoinShrinks(parts[1..], k - 1);
      assert parts[1..][k - 1..] == parts[k..];
    }
  }

  /** The key that routes `domain`: the longest registered one that is `domain` or follows one of its dots. */
  ghost predicate Longest<C>(registry: map<string, C>, domain: string, key: string) {
    && key in registry && SuffixAt(domain, key)
    && forall k :: k in registry && SuffixAt(domain, k) && k != key ==> |k| < |key|
  }

  /** Outcome of decorating a class with `register_scraper(*domains)`. */
  datatype Registration = Registered | Duplicate(domain: string)

  /** Bind the domains in order; stop at the first one that is bound to another class. */
  function Bind<C(==)>(registry: map<string, C>, domains: seq<string>, cls: C): (map<string, C>, Registration)
    decreases |domains|
  {
    if domains == [] then (registry, Registered)
    else if domains[0] in registry && registry[domains[0]] != cls then (registry, Duplicate(domains[0]))
    else Bind(registry[domains[0] := cls], domains[1..], cls)
  }

  /** One decorated class. */
  datatype Decorated<C> = Decorated(domains: seq<string>, cls: C)

  function BindAll<C(==)>(registry: map<string, C>, run: seq<Decorated<C>>): map<string, C>
    decreases |run|
  {
    if run == [] then registry else BindAll(Bind(registry, run[0].domains, run[0].cls).0, run[1..])
  }

  lemma {:induction false} BindKeeps<C>(registry: map<string, C>, domains: seq<string>, cls: C)
    ensures var (after, outcome) := Bind(registry, domains, cls);
      && (forall k :: k in registry ==> k in after && after[k] == registry[k])
      && (forall k :: k in after ==> k in registry || (k in domains && after[k] == cls))
      && (outcome.Registered? <==> forall d :: d in domains && d in registry ==> registry[d] == cls)
      && (outcome.Registered? ==> forall d :: d in domains ==> d in after && after[d] == cls)
    decreases |domains|
  {
    if domains != [] && !(domains[0] in registry && registry[domains[0]] != cls) {
      BindKeeps(registry[domains[0] := cls], domains[1..], cls);
      assert domains == [domains[0]] + domains[1..];
    }
  }

  /** Whatever is registered later, failing or not, an existing binding never changes. */
  lemma {:induction false} BindingsAreForever<C>(registry: map<string, C>, run: seq<Decorated<C>>)
    ensures forall k :: k in registry ==> k in BindAll(registry, run) && BindAll(registry, run)[k] == registry[k]
    decreases |run|
  {
    if run != [] {
      BindKeeps(registry, run[0].domains, run[0].cls);
      BindingsAreForever(Bind(registry, run[0].domains, run[0].cls).0, run[1..]);
    }
  }

  class ScraperRegistry<C(==)> {
    var entries: map<string, C>

    constructor ()
      ensures entries == map[]
    {
      entries := map[];
    }

    method Register(domains: seq<string>, cls: C) returns (outcome: Registration)
      modifies this
      ensures (entries, outcome) == Bind(old(entries), domains, cls)
    {
      for i := 0 to |domains|
        invariant Bind(entries, domains[i..], cls) == Bind(old(entries), domains, cls)
      {
        var domain := domains[i];
        assert domains[i..][0] == domain && domains[i..][1..] == domains[i + 1..];
        if domain in entries && entries[domain] != cls {
          return Duplicate(domain);
        }
        entries := entries[domain := cls];
      }
      return Registered;
    }

    /** Exact match, then the tails of the domain from the longest to the shortest. */
    method Lookup(domain: string) returns (found: Option<C>)
      ensures found == None <==> forall k :: k in entries ==> !SuffixAt(domain, k)
      ensures found.Some? ==> exists key :: Longest(entries, domain, key) && found.value == entries[key]
    {
      forall key ensures SuffixAt(domain, key) <==> IsTail(domain, key) {
        TailsAreSuffixes(domain, key);
      }
      if domain in entries {
        assert Longest(entries, domain, domain);
        return Some(entries[domain]);
      }
      var parts := Split(domain);
      JoinSplit(domain);
      assert parts[0..] == parts && Tail(domain, 0) == domain;
      for i := 1 to |parts|
        invariant forall j :: 0 <= j < i ==> Tail(domain, j) !in entries
      {
        var candidate := Join(parts[i..]);
        assert candidate == Tail(domain, i);
        if candidate in entries {
          assert IsTail(domain, candidate);
          forall k | k in entries && SuffixAt(domain, k) && k != candidate ensures |k| < |candidate| {
            assert IsTail(domain, k);
            var j :| 0 <= j < |Split(domain)| && Tail(domain, j) == k;
            TailsShrink(domain, i, j);
          }
          assert Longest(entries, domain, candidate);
          return Some(entries[candidate]);
        }
      }
      return None;
    }
  }
}
