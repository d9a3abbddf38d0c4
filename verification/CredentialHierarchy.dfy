/** The `extends` hierarchy of credential types, and the worklist that lists the
    ancestors of a type (packages/cli/src/credential-types.ts). */
module CredentialHierarchy {
  import opened Options
  import opened Sequences

  type TypeName = string

  /** `parents` is the declared `extends` list, or None when none is declared. */
  datatype CredentialType = CredentialType(parents: Option<seq<TypeName>>)

  type Catalogue = map<TypeName, CredentialType>

  function Extends(known: Catalogue, t: TypeName): seq<TypeName> {
    if t in known && known[t].parents.Some? then known[t].parents.value else []
  }

  // ---------- Ancestry ----------

  ghost predicate IsChain(known: Catalogue, path: seq<TypeName>) {
    |path| >= 2 && forall k | 0 <= k < |path| - 1 :: Link(known, path, k)
  }

  ghost predicate Link(known: Catalogue, path: seq<TypeName>, k: nat)
    requires k + 1 < |path|
  {
    path[k + 1] in Extends(known, path[k])
  }

  /** `x` is reached from `t` by one or more `extends` links. */
  ghost predicate Ancestor(known: Catalogue, t: TypeName, x: TypeName) {
    exists path :: IsChain(known, path) && path[0] == t && path[|path| - 1] == x
  }

  ghost predicate Acyclic(known: Catalogue) {
    forall t :: !Ancestor(known, t, t)
  }

  /** Every type has at most one parent. */
  ghost predicate SingleInheritance(known: Catalogue) {
    forall t :: |Extends(known, t)| <= 1
  }

  lemma ParentIsAncestor(known: Catalogue, t: TypeName, p: TypeName)
    requires p in Extends(known, t)
    ensures Ancestor(known, t, p)
  {
    assert Link(known, [t, p], 0);
    assert IsChain(known, [t, p]);
  }

  lemma AncestorThroughParent(known: Catalogue, t: TypeName, p: TypeName, x: TypeName)
    requires p in Extends(known, t) && Ancestor(known, p, x)
    ensures Ancestor(known, t, x)
  {
    var path :| IsChain(known, path) && path[0] == p && path[|path| - 1] == x;
    var longer := [t] + path;
    forall k | 0 <= k < |longer| - 1 ensures Link(known, longer, k) {
      if k > 0 { assert Link(known, path, k - 1); }
    }
    assert IsChain(known, longer);
  }

  lemma AncestorStartsAtParent(known: Catalogue, t: TypeName, x: TypeName) returns (p: TypeName)
    requires Ancestor(known, t, x)
    ensures p in Extends(known, t) && (x == p || Ancestor(known, p, x))
  {
    var path :| IsChain(known, path) && path[0] == t && path[|path| - 1] == x;
    assert Link(known, path, 0);
    p := path[1];
    if |path| > 2 {
      var rest := path[1..];
      forall k | 0 <= k < |rest| - 1 ensures Link(known, rest, k) {
        assert Link(known, path, k + 1);
      }
      assert IsChain(known, rest);
    }
  }

  lemma AncestorTransitive(known: Catalogue, t: TypeName, x: TypeName, y: TypeName)
    requires Ancestor(known, t, x) && Ancestor(known, x, y)
    ensures Ancestor(known, t, y)
  {
    var a :| IsChain(known, a) && a[0] == t && a[|a| - 1] == x;
    var b :| IsChain(known, b) && b[0] == x && b[|b| - 1] == y;
    var path := a + b[1..];
    forall k | 0 <= k < |path| - 1 ensures Link(known, path, k) {
      if k < |a| - 1 { assert Link(known, a, k); } else { assert Link(known, b, k - (|a| - 1)); }
    }
    assert IsChain(known, path);
  }

  // ---------- A rank for acyclic hierarchies ----------

  ghost function Mentioned(known: Catalogue): set<TypeName> {
    set t, p | t in known && p in Extends(known, t) :: p
  }

  ghost function Ancestors(known: Catalogue, t: TypeName): set<TypeName> {
    set x | x in Mentioned(known) && Ancestor(known, t, x)
  }

  lemma AncestorsAreComplete(known: Catalogue, t: TypeName, x: TypeName)
    requires Ancestor(known, t, x)
    ensures x in Ancestors(known, t)
  {
    var path :| IsChain(known, path) && path[0] == t && path[|path| - 1] == x;
    assert Link(known, path, |path| - 2);
  }

  /** The number of ancestors, which strictly decreases from a type to any ancestor. */
  ghost function Rank(known: Catalogue, t: TypeName): nat {
    |Ancestors(known, t)|
  }

  lemma ProperSubsetIsSmaller<T>(small: set<T>, big: set<T>, extra: T)
    requires small <= big && extra in big && extra !in small
    ensures |small| < |big|
  {
    var rest := big - small;
    assert extra in rest;
    assert big == small + rest;
  }

  lemma AncestorsRankLower(known: Catalogue, t: TypeName, x: TypeName)
    requires Acyclic(known) && Ancestor(known, t, x)
    ensures Rank(known, x) < Rank(known, t)
  {
    forall y | y in Ancestors(known, x) ensures y in Ancestors(known, t) {
      AncestorTransitive(known, t, x, y);
    }
    AncestorsAreComplete(known, t, x);
    ProperSubsetIsSmaller(Ancestors(known, x), Ancestors(known, t), x);
  }

  lemma ParentsRankLower(known: Catalogue, t: TypeName)
    requires Acyclic(known)
    ensures Below(known, Extends(known, t), Rank(known, t))
  {
    forall p | p in Extends(known, t) ensures Rank(known, p) < Rank(known, t) {
      ParentIsAncestor(known, t, p);
      AncestorsRankLower(known, t, p);
    }
  }

  ghost predicate Below(known: Catalogue, types: seq<TypeName>, level: nat) {
    forall x :: x in types ==> Rank(known, x) < level
  }

  // ---------- The ancestor listing, generation by generation ----------

  /** The list the worklist produces for `t`: its parents, then everything each
      generation of the list contributes. */
  ghost function ParentTypes(known: Catalogue, t: TypeName): (r: seq<TypeName>)
    requires Acyclic(known)
    ensures Below(known, r, Rank(known, t))
    decreases Rank(known, t), 2, 0
  {
    ParentsRankLower(known, t);
    Generations(known, Rank(known, t), Extends(known, t))
  }

  ghost function Generations(known: Catalogue, level: nat, generation: seq<TypeName>): (r: seq<TypeName>)
    requires Acyclic(known) && Below(known, generation, level)
    ensures Below(known, r, level)
    decreases level, 1, 0
  {
    if generation == [] then [] else
    assert generation[0] in generation;
    generation + Generations(known, level - 1, Contributed(known, level, generation))
  }

  /** What scanning one generation appends to the list. */
  ghost function Contributed(known: Catalogue, level: nat, generation: seq<TypeName>): (r: seq<TypeName>)
    requires Acyclic(known) && Below(known, generation, level)
    ensures level > 0 ==> Below(known, r, level - 1)
    ensures level == 0 ==> r == []
    decreases level, 0, |generation|
  {
    if generation == [] then [] else
    assert generation[0] in generation;
    ParentTypes(known, generation[0]) + Contributed(known, level, generation[1..])
  }

  lemma GenerationStep(known: Catalogue, level: nat, generation: seq<TypeName>)
    requires Acyclic(known) && Below(known, generation, level) && generation != []
    ensures level > 0 && Below(known, Contributed(known, level, generation), level - 1)
    ensures Generations(known, level, generation)
         == generation + Generations(known, level - 1, Contributed(known, level, generation))
  {
    hide Contributed, Rank;
    assert generation[0] in generation;
  }

  lemma ContributedStep(known: Catalogue, level: nat, generation: seq<TypeName>)
    requires Acyclic(known) && Below(known, generation, level) && generation != []
    ensures Below(known, generation[1..], level)
    ensures Contributed(known, level, generation)
         == ParentTypes(known, generation[0]) + Contributed(known, level, generation[1..])
  {
    hide ParentTypes, Rank;
    assert generation[0] in generation;
  }

  lemma NoGeneration(known: Catalogue, level: nat)
    requires Acyclic(known)
    ensures Generations(known, level, []) == [] && Contributed(known, level, []) == []
  {
  }

  // ---------- What the list contains ----------

  /** The listed types are exactly the strict ancestors. */
  lemma {:induction false} ParentTypesAreAncestors(known: Catalogue, t: TypeName, x: TypeName)
    requires Acyclic(known)
    ensures x in ParentTypes(known, t) <==> Ancestor(known, t, x)
    decreases Rank(known, t), 2, 0
  {
    ParentsRankLower(known, t);
    var parents := Extends(known, t);
    GenerationsReach(known, Rank(known, t), parents, x);
    if Ancestor(known, t, x) {
      var p := AncestorStartsAtParent(known, t, x);
    }
    if x in parents { ParentIsAncestor(known, t, x); }
    if p :| p in parents && Ancestor(known, p, x) { AncestorThroughParent(known, t, p, x); }
  }

  ghost predicate Reached(known: Catalogue, from: seq<TypeName>, x: TypeName) {
    exists y :: y in from && Ancestor(known, y, x)
  }

  lemma {:induction false} GenerationsReach(known: Catalogue, level: nat, generation: seq<TypeName>, x: TypeName)
    requires Acyclic(known) && Below(known, generation, level)
    ensures x in Generations(known, level, generation) <==> x in generation || Reached(known, generation, x)
    decreases level, 1, 0
  {
    hide Generations, Contributed, Ancestor, Rank;
    if generation == [] {
      NoGeneration(known, level);
    } else {
      GenerationStep(known, level, generation);
      var next := Contributed(known, level, generation);
      ContributedReach(known, level, generation, x);
      GenerationsReach(known, level - 1, next, x);
      if Reached(known, next, x) { ReachedThrough(known, level, generation, x); }
      hide *;
      assert x in Generations(known, level, generation)
        <==> x in generation || x in Generations(known, level - 1, next);
    }
  }

  lemma {:induction false} ReachedThrough(known: Catalogue, level: nat, generation: seq<TypeName>, x: TypeName)
    requires Acyclic(known) && Below(known, generation, level) && generation != []
    requires Reached(known, Contributed(known, level, generation), x)
    ensures Reached(known, generation, x)
    decreases level, 0, |generation| + 1
  {
    var z :| z in Contributed(known, level, generation) && Ancestor(known, z, x);
    ContributedReach(known, level, generation, z);
    var y :| y in generation && Ancestor(known, y, z);
    AncestorTransitive(known, y, z, x);
  }

  lemma {:induction false} ContributedReach(known: Catalogue, level: nat, generation: seq<TypeName>, x: TypeName)
    requires Acyclic(known) && Below(known, generation, level)
    ensures x in Contributed(known, level, generation) <==> Reached(known, generation, x)
    decreases level, 0, |generation|
  {
    hide Contributed, ParentTypes, Ancestor, Rank;
    if generation == [] {
      NoGeneration(known, level);
    } else {
      assert generation[0] in generation;
      ContributedStep(known, level, generation);
      ParentTypesAreAncestors(known, generation[0], x);
      ContributedReach(known, level, generation[1..], x);
      assert forall y :: y in generation <==> y == generation[0] || y in generation[1..];
    }
  }

  // ---------- The order of the list on a single-inheritance chain ----------

  /** `s` without the repeated occurrences. */
  function Distinct(s: seq<TypeName>): seq<TypeName> {
    if s == [] then [] else
    var front, last := s[..|s| - 1], s[|s| - 1];
    Distinct(front) + if last in front then [] else [last]
  }

  lemma {:induction false} DistinctAbsorbs(a: seq<TypeName>, b: seq<TypeName>)
    requires forall x :: x in b ==> x in a
    ensures Distinct(a + b) == Distinct(a)
    decreases |b|
  {
    if b == [] {
      assert a + b == a;
    } else {
      var s := a + b;
      assert s[..|s| - 1] == a + b[..|b| - 1];
      assert s[|s| - 1] == b[|b| - 1] && b[|b| - 1] in a;
      DistinctAbsorbs(a, b[..|b| - 1]);
    }
  }

  lemma {:induction false} DistinctCons(t: TypeName, s: seq<TypeName>)
    requires t !in s
    ensures Distinct([t] + s) == [t] + Distinct(s)
  {
    var all := [t] + s;
    if s == [] {
      assert all[..0] == [];
    } else {
      assert all[..|all| - 1] == [t] + s[..|s| - 1];
      assert all[|all| - 1] == s[|s| - 1] != t;
      DistinctCons(t, s[..|s| - 1]);
    }
  }

  /** `t` followed by its single chain of ancestors, nearest first. */
  ghost function Lineage(known: Catalogue, t: TypeName): seq<TypeName>
    requires Acyclic(known) && SingleInheritance(known)
    decreases Rank(known, t)
  {
    ParentsRankLower(known, t);
    if Extends(known, t) == [] then [t] else [t] + Lineage(known, Extends(known, t)[0])
  }

  /** A type with one parent lists that parent, then the parent's own list, then
      only types that are already there. */
  lemma ListOfOneParent(known: Catalogue, t: TypeName, p: TypeName) returns (rest: seq<TypeName>)
    requires Acyclic(known) && Extends(known, t) == [p]
    ensures ParentTypes(known, t) == [p] + ParentTypes(known, p) + rest
    ensures forall x :: x in rest ==> x in ParentTypes(known, p)
  {
    ParentsRankLower(known, t);
    var level := Rank(known, t);
    assert p in [p];
    var next := ParentTypes(known, p);
    assert Contributed(known, level, [p]) == next by { assert [p][1..] == []; }
    var tail := Generations(known, level - 1, next);
    assert ParentTypes(known, t) == [p] + tail;
    if next == [] { return tail; }
    assert next[0] in next;
    rest := Generations(known, level - 2, Contributed(known, level - 1, next));
    assert tail == next + rest;
    forall x | x in rest ensures x in next {
      assert x in tail;
      GenerationsReach(known, level - 1, next, x);
      if x !in next {
        var y :| y in next && Ancestor(known, y, x);
        ParentTypesAreAncestors(known, p, y);
        AncestorTransitive(known, p, y, x);
        ParentTypesAreAncestors(known, p, x);
      }
    }
  }

  lemma ChildNotListed(known: Catalogue, t: TypeName, p: TypeName)
    requires Acyclic(known) && p in Extends(known, t)
    ensures t !in [p] + ParentTypes(known, p)
  {
    ParentIsAncestor(known, t, p);
    AncestorsRankLower(known, t, p);
  }

  /** First occurrences appear nearest-first, however often a type is repeated. */
  lemma {:induction false} ListedNearestFirst(known: Catalogue, t: TypeName)
    requires Acyclic(known) && SingleInheritance(known)
    ensures Distinct([t] + ParentTypes(known, t)) == Lineage(known, t)
    decreases Rank(known, t)
  {
    ParentsRankLower(known, t);
    assert |Extends(known, t)| <= 1;
    if Extends(known, t) == [] {
      DistinctCons(t, []);
    } else {
      var p := Extends(known, t)[0];
      var rest := ListOfOneParent(known, t, p);
      var own := [p] + ParentTypes(known, p);
      assert [t] + ParentTypes(known, t) == [t] + own + rest;
      DistinctAbsorbs([t] + own, rest);
      ChildNotListed(known, t, p);
      DistinctCons(t, own);
      ListedNearestFirst(known, p);
    }
  }

  // ---------- The service ----------

  /** The list still to be appended while a generation is being scanned: `scanning` is
      what is left of it and `next` what it has contributed so far. */
  ghost predicate Scannable(known: Catalogue, level: nat, scanning: seq<TypeName>, next: seq<TypeName>) {
    level > 0 && Below(known, scanning, level) && Below(known, next, level - 1)
  }

  ghost function Remaining(known: Catalogue, level: nat, scanning: seq<TypeName>, next: seq<TypeName>): seq<TypeName>
    requires Acyclic(known) && Scannable(known, level, scanning, next)
  {
    scanning + Generations(known, level - 1, next + Contributed(known, level, scanning))
  }

  lemma ScanStarts(known: Catalogue, level: nat, generation: seq<TypeName>)
    requires Acyclic(known) && Below(known, generation, level) && generation != []
    ensures Scannable(known, level, generation, [])
    ensures Remaining(known, level, generation, []) == Generations(known, level, generation)
  {
    assert generation[0] in generation;
    assert [] + Contributed(known, level, generation) == Contributed(known, level, generation);
  }

  lemma ScanTurnsOver(known: Catalogue, level: nat, next: seq<TypeName>)
    requires Acyclic(known) && Scannable(known, level, [], next) && next != []
    ensures Scannable(known, level - 1, next, [])
    ensures Remaining(known, level, [], next) == Remaining(known, level - 1, next, [])
  {
    ScanStarts(known, level - 1, next);
    assert next + Contributed(known, level, []) == next;
  }

  lemma ScannableAdvances(known: Catalogue, level: nat, scanning: seq<TypeName>, next: seq<TypeName>)
    requires Acyclic(known) && Scannable(known, level, scanning, next) && scanning != []
    ensures Rank(known, scanning[0]) < level
    ensures Scannable(known, level, scanning[1..], next + ParentTypes(known, scanning[0]))
  {
    hide Rank, Acyclic;
    assert scanning[0] in scanning;
  }

  lemma ScanAdvances(known: Catalogue, level: nat, scanning: seq<TypeName>, next: seq<TypeName>)
    requires Acyclic(known) && Scannable(known, level, scanning, next) && scanning != []
    ensures Rank(known, scanning[0]) < level
    ensures Scannable(known, level, scanning[1..], next + ParentTypes(known, scanning[0]))
    ensures Remaining(known, level, scanning, next)
         == [scanning[0]] + Remaining(known, level, scanning[1..], next + ParentTypes(known, scanning[0]))
  {
    ScannableAdvances(known, level, scanning, next);
    ContributedStep(known, level, scanning);
    hide Contributed, Generations, ParentTypes, Rank, Acyclic, Below;
    var inherited, contributed := ParentTypes(known, scanning[0]), Contributed(known, level, scanning[1..]);
    Associative(next, inherited, contributed);
    Associative([scanning[0]], scanning[1..], Generations(known, level - 1, next + inherited + contributed));
    assert scanning == [scanning[0]] + scanning[1..];
  }

  /** The worklist invariant: positions from `i` on hold what is left of the generation
      being scanned and then what it has contributed. */
  ghost predicate Scanned(known: Catalogue, t: TypeName, list: seq<TypeName>, i: nat,
                          level: nat, scanning: seq<TypeName>, next: seq<TypeName>)
  {
    && Acyclic(known) && i <= |list| && list[i..] == scanning + next
    && Scannable(known, level, scanning, next)
    && ParentTypes(known, t) == list[..i] + Remaining(known, level, scanning, next)
  }

  lemma ScanningBegins(known: Catalogue, t: TypeName)
    requires Acyclic(known)
    ensures Extends(known, t) == [] ==> ParentTypes(known, t) == []
    ensures Extends(known, t) != [] ==> Scanned(known, t, Extends(known, t), 0, Rank(known, t), Extends(known, t), [])
  {
    ParentsRankLower(known, t);
    if Extends(known, t) != [] { ScanStarts(known, Rank(known, t), Extends(known, t)); }
  }

  lemma ScanningEnds(known: Catalogue, t: TypeName, list: seq<TypeName>, level: nat, scanning: seq<TypeName>,
      next: seq<TypeName>)
    requires Scanned(known, t, list, |list|, level, scanning, next)
    ensures list == ParentTypes(known, t)
  {
    assert |scanning + next| == 0;
  }

  lemma ScannedTurnsOver(known: Catalogue, t: TypeName, list: seq<TypeName>, i: nat, level: nat, next: seq<TypeName>)
    requires Scanned(known, t, list, i, level, [], next) && i < |list|
    ensures level > 0 && Scanned(known, t, list, i, level - 1, next, [])
  {
    assert list[i..] == next == next + [];
    ScanTurnsOver(known, level, next);
  }

  lemma QueueAdvances<T>(list: seq<T>, i: nat, scanning: seq<T>, next: seq<T>, more: seq<T>, goal: seq<T>, rest: seq<T>)
    requires i < |list| && list[i..] == scanning + next && scanning != []
    requires goal == list[..i] + ([scanning[0]] + rest)
    ensures (list + more)[i + 1..] == scanning[1..] + (next + more)
    ensures goal == (list + more)[..i + 1] + rest
  {
    assert list[i..][0] == list[i];
    assert (list + more)[i + 1..] == list[i..][1..] + more;
    assert (list + more)[..i + 1] == list[..i] + [scanning[0]];
  }

  lemma ScannedAdvances(known: Catalogue, t: TypeName, list: seq<TypeName>, i: nat,
                        level: nat, scanning: seq<TypeName>, next: seq<TypeName>)
    requires Scanned(known, t, list, i, level, scanning, next) && scanning != []
    ensures i < |list| && Rank(known, list[i]) < level
    ensures var inherited := ParentTypes(known, list[i]);
            Scanned(known, t, list + inherited, i + 1, level, scanning[1..], next + inherited)
  {
    assert list[i..][0] == list[i];
    ScanAdvances(known, level, scanning, next);
    var inherited := ParentTypes(known, list[i]);
    QueueAdvances(list, i, scanning, next, inherited, ParentTypes(known, t),
                  Remaining(known, level, scanning[1..], next + inherited));
  }

  class CredentialTypes {
    var knownCredentials: Catalogue

    /** Appends to the list it is iterating over; the level of the generation being
        scanned and what is left of it bound the loop. */
    method GetParentTypes(typeName: TypeName) returns (r: seq<TypeName>)
      requires Acyclic(knownCredentials)
      ensures r == ParentTypes(knownCredentials, typeName)
      decreases Rank(knownCredentials, typeName)
    {
      hide *;
      ghost var known := knownCredentials;
      var extendsArr := Extends(knownCredentials, typeName);
      ScanningBegins(known, typeName);
      if |extendsArr| == 0 {
        return [];
      }
      r := extendsArr;
      var i := 0;
      ghost var level: nat, scanning, next := Rank(known, typeName), extendsArr, [];
      while i < |r|
        invariant 0 <= i <= |r| && level <= Rank(known, typeName)
        invariant Scanned(known, typeName, r, i, level, scanning, next)
        decreases level, |scanning|
      {
        if scanning == [] {
          ScannedTurnsOver(known, typeName, r, i, level, next);
          scanning, next, level := next, [], level - 1;
        }
        ScannedAdvances(known, typeName, r, i, level, scanning, next);
        var inherited := GetParentTypes(r[i]);
        scanning, next := scanning[1..], next + inherited;
        r, i := r + inherited, i + 1;
      }
      ScanningEnds(known, typeName, r, level, scanning, next);
    }
  }
}
