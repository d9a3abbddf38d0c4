/** Credential overwrites, denormalised in place through a memo and read back along the
    ancestors of a type (packages/cli/src/credentials-overwrites.ts). */
module OverwriteInheritance {
  import opened Options
  import opened CredentialHierarchy

  /** `Other` stands for every value that is neither null nor a string. */
  datatype Value = Null | Text(s: string) | Other(id: int)

  type Fields = map<string, Value>
  type Overwrites = map<TypeName, Fields>

  function Field(fields: Fields, key: string): Option<Value> { Lookup(fields, key) }

  // ---------- The promise ----------

  predicate Defines(data: Overwrites, t: TypeName, key: string) { t in data && key in data[t] }

  /** The value the nearest type on the chain of `t`, itself first, gives to `key`. */
  ghost function Nearest(known: Catalogue, data: Overwrites, t: TypeName, key: string): Option<Value>
    requires Acyclic(known) && SingleInheritance(known)
    decreases Rank(known, t)
  {
    ParentsRankLower(known, t);
    if Defines(data, t, key) then Some(data[t][key])
    else if Extends(known, t) == [] then None
    else Nearest(known, data, Extends(known, t)[0], key)
  }

  /** The value `t` gives to `key` or else inherits, from the first parent that has one. */
  ghost function Inherited(known: Catalogue, data: Overwrites, t: TypeName, key: string): Option<Value>
    requires Acyclic(known)
    decreases Rank(known, t), 1, 0
  {
    ParentsRankLower(known, t);
    if Defines(data, t, key) then Some(data[t][key])
    else FirstInherited(known, data, Rank(known, t), Extends(known, t), key)
  }

  ghost function FirstInherited(known: Catalogue, data: Overwrites, level: nat, types: seq<TypeName>,
      key: string): Option<Value>
    requires Acyclic(known) && Below(known, types, level)
    decreases level, 0, |types|
  {
    if types == [] then None else
    assert types[0] in types;
    var first := Inherited(known, data, types[0], key);
    if first.Some? then first else FirstInherited(known, data, level, types[1..], key)
  }

  predicate Agree(a: Option<Value>, b: Option<Value>) { a.Some? && b.Some? ==> a == b }

  ghost predicate AgreeOn(known: Catalogue, data: Overwrites, types: seq<TypeName>, key: string)
    requires Acyclic(known)
  {
    forall p, q :: p in types && q in types ==> Agree(Inherited(known, data, p, key), Inherited(known, data, q, key))
  }

  /** Wherever a type leaves `key` to its parents, those that have a value agree on it. */
  ghost predicate Coherent(known: Catalogue, data: Overwrites, key: string)
    requires Acyclic(known)
  {
    forall t :: Defines(data, t, key) || AgreeOn(known, data, Extends(known, t), key)
  }

  lemma SingleIsCoherent(known: Catalogue, data: Overwrites, key: string)
    requires Acyclic(known) && SingleInheritance(known)
    ensures Coherent(known, data, key)
  {
    hide Inherited;
    forall t ensures AgreeOn(known, data, Extends(known, t), key) {
      assert |Extends(known, t)| <= 1;
    }
  }

  lemma {:induction false} NearestIsInherited(known: Catalogue, data: Overwrites, t: TypeName, key: string)
    requires Acyclic(known) && SingleInheritance(known)
    ensures Nearest(known, data, t, key) == Inherited(known, data, t, key)
    decreases Rank(known, t)
  {
    ParentsRankLower(known, t);
    var parents := Extends(known, t);
    if parents != [] {
      assert |parents| <= 1 && parents[1..] == [];
      NearestIsInherited(known, data, parents[0], key);
      assert FirstInherited(known, data, Rank(known, t), parents, key) == Inherited(known, data, parents[0], key);
    }
  }

  /** When the types agree, any of them that has a value tells the first one. */
  lemma {:induction false} FirstInheritedIs(known: Catalogue, data: Overwrites, level: nat, types: seq<TypeName>,
      key: string, p: TypeName)
    requires Acyclic(known) && Below(known, types, level) && AgreeOn(known, data, types, key)
    requires p in types && Inherited(known, data, p, key).Some?
    ensures FirstInherited(known, data, level, types, key) == Inherited(known, data, p, key)
    decreases |types|
  {
    hide Inherited;
    assert types[0] in types;
    if Inherited(known, data, types[0], key).None? {
      assert AgreeOn(known, data, types[1..], key) && Below(known, types[1..], level);
      FirstInheritedIs(known, data, level, types[1..], key, p);
    }
  }

  // ---------- getOverwrites and setPlainData as functions ----------

  /** The overwrites of `t` and the memo after the call. A memoised type is answered
      from `data`, whatever `data` holds for it at that moment. */
  ghost function Resolve(known: Catalogue, data: Overwrites, resolved: seq<TypeName>,
      t: TypeName): (r: (Option<Fields>, seq<TypeName>))
    requires Acyclic(known)
    decreases Rank(known, t), 1, 0
  {
    ParentsRankLower(known, t);
    if t in resolved then (Lookup(data, t), resolved)
    else if t !in known then (None, resolved)
    else if known[t].parents.None? then (Lookup(data, t), resolved + [t])
    else
      var (inherited, memo) := ResolveParents(known, data, resolved, Rank(known, t), known[t].parents.value, map[]);
      (Some(if t in data then inherited + data[t] else inherited), memo + [t])
  }

  /** Later parents are assigned over earlier ones. */
  ghost function ResolveParents(known: Catalogue, data: Overwrites, resolved: seq<TypeName>,
                                level: nat, parents: seq<TypeName>, acc: Fields): (r: (Fields, seq<TypeName>))
    requires Acyclic(known) && Below(known, parents, level)
    decreases level, 0, |parents|
  {
    if parents == [] then (acc, resolved) else
    assert parents[0] in parents;
    var (own, memo) := Resolve(known, data, resolved, parents[0]);
    ResolveParents(known, data, memo, level, parents[1..], if own.Some? then acc + own.value else acc)
  }

  /** One pass over `keys`, storing every non-empty result back. */
  ghost function Denormalise(known: Catalogue, data: Overwrites, resolved: seq<TypeName>,
      keys: seq<TypeName>): Overwrites
    requires Acyclic(known)
    decreases |keys|
  {
    if keys == [] then data else
    var (own, memo) := Resolve(known, data, resolved, keys[0]);
    var next := if own.Some? && own.value != map[] then data[keys[0] := own.value] else data;
    Denormalise(known, next, memo, keys[1..])
  }

  // ---------- get and applyOverwrite as functions ----------

  function Reverse(s: seq<TypeName>): seq<TypeName> {
    if s == [] then [] else Reverse(s[1..]) + [s[0]]
  }

  /** Object.assign of the present entries, in the order given. */
  function Overlay(data: Overwrites, types: seq<TypeName>): Fields {
    if types == [] then map[] else
    var front, last := Overlay(data, types[..|types| - 1]), types[|types| - 1];
    if last in data then front + data[last] else front
  }

  ghost function Get(known: Catalogue, data: Overwrites, t: TypeName): Fields
    requires Acyclic(known)
  {
    Overlay(data, Reverse([t] + ParentTypes(known, t)))
  }

  predicate IsUnset(v: Option<Value>) {
    v == None || v.value == Null || v.value == Text("")
  }

  ghost predicate Applied(overwrites: Fields, data: Fields, r: Fields) {
    && r.Keys == data.Keys + overwrites.Keys
    && forall k :: k in r ==>
         Field(r, k) == if k in overwrites && IsUnset(Field(data, k)) then Field(overwrites, k) else Field(data, k)
  }

  // ---------- get reads the nearest definition ----------

  function FirstDefining(data: Overwrites, types: seq<TypeName>, key: string): Option<Value> {
    if types == [] then None
    else if Defines(data, types[0], key) then Some(data[types[0]][key])
    else FirstDefining(data, types[1..], key)
  }

  lemma {:induction false} OverlayReversed(data: Overwrites, types: seq<TypeName>, key: string)
    ensures Field(Overlay(data, Reverse(types)), key) == FirstDefining(data, types, key)
  {
    if types != [] {
      var back := Reverse(types);
      assert back[..|back| - 1] == Reverse(types[1..]);
      OverlayReversed(data, types[1..], key);
    }
  }

  lemma {:induction false} FirstDefiningConcat(data: Overwrites, a: seq<TypeName>, b: seq<TypeName>, key: string)
    ensures FirstDefining(data, a + b, key)
         == if FirstDefining(data, a, key).Some? then FirstDefining(data, a, key) else FirstDefining(data, b, key)
  {
    if a == [] {
      assert a + b == b;
    } else {
      assert (a + b)[1..] == a[1..] + b;
      FirstDefiningConcat(data, a[1..], b, key);
    }
  }

  lemma {:induction false} FirstDefiningMember(data: Overwrites, types: seq<TypeName>, key: string)
    ensures FirstDefining(data, types, key).None? <==> forall x :: x in types ==> !Defines(data, x, key)
    ensures FirstDefining(data, types, key).Some? ==>
              exists x :: x in types && Defines(data, x, key) && FirstDefining(data, types, key) == Some(data[x][key])
  {
    if types != [] {
      FirstDefiningMember(data, types[1..], key);
      assert forall x :: x in types <==> x == types[0] || x in types[1..];
    }
  }

  /** A type that inherits nothing has no ancestor that defines the key. */
  lemma {:induction false} NothingAbove(known: Catalogue, data: Overwrites, t: TypeName, x: TypeName, key: string)
    requires Acyclic(known) && Inherited(known, data, t, key).None? && Ancestor(known, t, x)
    ensures !Defines(data, x, key)
    decreases Rank(known, t)
  {
    ParentsRankLower(known, t);
    var p := AncestorStartsAtParent(known, t, x);
    FirstInheritedNone(known, data, Rank(known, t), Extends(known, t), key, p);
    if x != p { NothingAbove(known, data, p, x, key); }
  }

  lemma {:induction false} FirstInheritedNone(known: Catalogue, data: Overwrites, level: nat, types: seq<TypeName>,
      key: string, p: TypeName)
    requires Acyclic(known) && Below(known, types, level) && p in types
    requires FirstInherited(known, data, level, types, key).None?
    ensures Inherited(known, data, p, key).None?
    decreases |types|
  {
    hide Inherited;
    assert types[0] in types;
    if p != types[0] {
      assert Below(known, types[1..], level);
      FirstInheritedNone(known, data, level, types[1..], key, p);
    }
  }

  /** Where a type leaves the key to its parents and they agree, the first definer in the
      list of its ancestors, however far up, gives the inherited value. */
  lemma {:induction false} ListInherits(known: Catalogue, data: Overwrites, t: TypeName, key: string)
    requires Acyclic(known) && Coherent(known, data, key) && !Defines(data, t, key)
    ensures FirstDefining(data, ParentTypes(known, t), key) == Inherited(known, data, t, key)
    decreases Rank(known, t), 2, 0
  {
    ParentsRankLower(known, t);
    var level, parents := Rank(known, t), Extends(known, t);
    FirstDefiningMember(data, parents, key);
    if FirstDefining(data, parents, key).Some? {
      ParentDefines(known, data, t, key);
    } else if Inherited(known, data, t, key).None? {
      NothingListed(known, data, t, key);
    } else {
      ContributedInherits(known, data, level, parents, key);
      ListContinues(known, t);
      assert FirstInherited(known, data, level, parents, key) == Inherited(known, data, t, key);
      hide *;
      var next := Contributed(known, level, parents);
      FirstDefiningConcat(data, parents, next + ParentTypes(known, t)[|parents| + |next|..], key);
      FirstDefiningConcat(data, next, ParentTypes(known, t)[|parents| + |next|..], key);
    }
  }

  lemma ParentDefines(known: Catalogue, data: Overwrites, t: TypeName, key: string)
    requires Acyclic(known) && Coherent(known, data, key) && !Defines(data, t, key)
    requires FirstDefining(data, Extends(known, t), key).Some?
    ensures FirstDefining(data, ParentTypes(known, t), key) == Inherited(known, data, t, key)
  {
    ParentsRankLower(known, t);
    var level, parents := Rank(known, t), Extends(known, t);
    assert AgreeOn(known, data, parents, key);
    FirstDefiningMember(data, parents, key);
    var y :| y in parents && Defines(data, y, key) && FirstDefining(data, parents, key) == Some(data[y][key]);
    FirstInheritedIs(known, data, level, parents, key, y);
    hide ParentTypes, Rank, Acyclic, FirstDefining;
    ListStarts(known, t);
    FirstDefiningConcat(data, parents, ParentTypes(known, t)[|parents|..], key);
  }

  lemma NothingListed(known: Catalogue, data: Overwrites, t: TypeName, key: string)
    requires Acyclic(known) && Inherited(known, data, t, key).None?
    ensures FirstDefining(data, ParentTypes(known, t), key).None?
  {
    hide ParentTypes, Inherited, Ancestor, Acyclic;
    forall x | x in ParentTypes(known, t) ensures !Defines(data, x, key) {
      ParentTypesAreAncestors(known, t, x);
      NothingAbove(known, data, t, x, key);
    }
    FirstDefiningMember(data, ParentTypes(known, t), key);
  }

  lemma {:induction false} ContributedInherits(known: Catalogue, data: Overwrites, level: nat, types: seq<TypeName>,
      key: string)
    requires Acyclic(known) && Coherent(known, data, key) && Below(known, types, level)
    requires forall x :: x in types ==> !Defines(data, x, key)
    ensures FirstDefining(data, Contributed(known, level, types), key) == FirstInherited(known, data, level, types, key)
    decreases level, 0, |types|
  {
    hide Coherent;
    if types != [] {
      assert types[0] in types;
      ListInherits(known, data, types[0], key);
      assert Below(known, types[1..], level);
      ContributedInherits(known, data, level, types[1..], key);
      FirstDefiningConcat(data, ParentTypes(known, types[0]), Contributed(known, level, types[1..]), key);
    }
  }

  lemma ListStarts(known: Catalogue, t: TypeName)
    requires Acyclic(known)
    ensures Extends(known, t) <= ParentTypes(known, t)
    ensures ParentTypes(known, t) == Extends(known, t) + ParentTypes(known, t)[|Extends(known, t)|..]
  {
    ParentsRankLower(known, t);
    if Extends(known, t) != [] { GenerationStep(known, Rank(known, t), Extends(known, t)); }
  }

  lemma GenerationStarts(known: Catalogue, level: nat, generation: seq<TypeName>)
    requires Acyclic(known) && Below(known, generation, level)
    ensures generation <= Generations(known, level, generation)
  {
    if generation != [] { GenerationStep(known, level, generation); }
  }

  lemma ListedInGenerations(known: Catalogue, t: TypeName)
    requires Acyclic(known)
    ensures Below(known, Extends(known, t), Rank(known, t))
    ensures ParentTypes(known, t) == Generations(known, Rank(known, t), Extends(known, t))
  {
    ParentsRankLower(known, t);
    hide Generations, Rank, Acyclic, Below;
  }

  lemma PrefixAfter<T>(list: seq<T>, a: seq<T>, b: seq<T>, rest: seq<T>)
    requires list == a + rest && b <= rest
    ensures |a| + |b| <= |list| && list == a + (b + list[|a| + |b|..])
  {
    assert rest == b + rest[|b|..] && list[|a| + |b|..] == rest[|b|..];
  }

  /** The list starts with the parents and what they contribute. */
  lemma ListContinues(known: Catalogue, t: TypeName)
    requires Acyclic(known)
    ensures Below(known, Extends(known, t), Rank(known, t))
    ensures var parents, list := Extends(known, t), ParentTypes(known, t);
            var next := Contributed(known, Rank(known, t), parents);
            |parents| + |next| <= |list| && list == parents + (next + list[|parents| + |next|..])
  {
    hide *;
    ListedInGenerations(known, t);
    var level, parents, list := Rank(known, t), Extends(known, t), ParentTypes(known, t);
    if parents == [] {
      NoGeneration(known, level);
    } else {
      GenerationStep(known, level, parents);
      var next := Contributed(known, level, parents);
      GenerationStarts(known, level - 1, next);
      PrefixAfter(list, parents, next, Generations(known, level - 1, next));
    }
  }

  /** What `get` reads, on any acyclic hierarchy whose parents agree on the key. */
  lemma GetIsInherited(known: Catalogue, data: Overwrites, t: TypeName, key: string)
    requires Acyclic(known) && Coherent(known, data, key)
    ensures Field(Get(known, data, t), key) == Inherited(known, data, t, key)
  {
    var listed := [t] + ParentTypes(known, t);
    OverlayReversed(data, listed, key);
    assert listed[1..] == ParentTypes(known, t);
    if !Defines(data, t, key) { ListInherits(known, data, t, key); }
  }

  lemma GetIsNearest(known: Catalogue, data: Overwrites, t: TypeName, key: string)
    requires Acyclic(known) && SingleInheritance(known)
    ensures Field(Get(known, data, t), key) == Nearest(known, data, t, key)
  {
    SingleIsCoherent(known, data, key);
    GetIsInherited(known, data, t, key);
    NearestIsInherited(known, data, t, key);
  }

  // ---------- Denormalising never changes what get reads ----------

  /** Every stored entry lies between the raw entry and the inherited values. */
  ghost predicate Faithful(known: Catalogue, raw: Overwrites, data: Overwrites, key: string)
    requires Acyclic(known)
  {
    raw.Keys <= data.Keys && forall t :: t in data ==> FaithfulTo(known, raw, t, Some(data[t]), key)
  }

  ghost predicate FaithfulTo(known: Catalogue, raw: Overwrites, t: TypeName, own: Option<Fields>, key: string)
    requires Acyclic(known)
  {
    && (own.Some? && Defines(raw, t, key) ==> key in own.value)
    && (own.Some? && key in own.value ==> Inherited(known, raw, t, key) == Some(own.value[key]))
  }

  lemma {:induction false} ResolveFaithful(
    known: Catalogue, raw: Overwrites, data: Overwrites, resolved: seq<TypeName>, t: TypeName, key: string)
    requires Acyclic(known) && Coherent(known, raw, key) && Faithful(known, raw, data, key)
    ensures FaithfulTo(known, raw, t, Resolve(known, data, resolved, t).0, key)
    decreases Rank(known, t), 1, 0
  {
    ParentsRankLower(known, t);
    if t in data { assert FaithfulTo(known, raw, t, Some(data[t]), key); }
    if t in known && t !in resolved && known[t].parents.Some? {
      var level, parents := Rank(known, t), Extends(known, t);
      ParentsInherit(known, raw, data, resolved, level, parents, map[], key);
      var inherited := ResolveParents(known, data, resolved, level, parents, map[]).0;
      if key in inherited && !Defines(data, t, key) {
        assert !Defines(raw, t, key) && AgreeOn(known, raw, parents, key);
        var p :| p in parents && Inherited(known, raw, p, key) == Some(inherited[key]);
        FirstInheritedIs(known, raw, level, parents, key, p);
      }
    }
  }

  /** What the parents merge to is what one of them inherits. */
  lemma {:induction false} ParentsInherit(known: Catalogue, raw: Overwrites, data: Overwrites, resolved: seq<TypeName>,
                                          level: nat, parents: seq<TypeName>, acc: Fields, key: string)
    requires Acyclic(known) && Coherent(known, raw, key) && Faithful(known, raw, data, key)
    requires Below(known, parents, level)
    ensures var r := ResolveParents(known, data, resolved, level, parents, acc).0;
            key in r && !(key in acc && r[key] == acc[key]) ==>
              exists p :: p in parents && Inherited(known, raw, p, key) == Some(r[key])
    decreases level, 0, |parents|
  {
    hide Coherent, Faithful, Inherited;
    if parents != [] {
      assert parents[0] in parents && Below(known, parents[1..], level);
      var (own, memo) := Resolve(known, data, resolved, parents[0]);
      ResolveFaithful(known, raw, data, resolved, parents[0], key);
      ParentsInherit(known, raw, data, memo, level, parents[1..], if own.Some? then acc + own.value else acc, key);
    }
  }

  lemma {:induction false} DenormaliseFaithful(
    known: Catalogue, raw: Overwrites, data: Overwrites, resolved: seq<TypeName>, keys: seq<TypeName>, key: string)
    requires Acyclic(known) && Coherent(known, raw, key) && Faithful(known, raw, data, key)
    ensures Faithful(known, raw, Denormalise(known, data, resolved, keys), key)
    decreases |keys|
  {
    hide Coherent;
    if keys != [] {
      ResolveFaithful(known, raw, data, resolved, keys[0], key);
      var (own, memo) := Resolve(known, data, resolved, keys[0]);
      var next := if own.Some? && own.value != map[] then data[keys[0] := own.value] else data;
      DenormaliseFaithful(known, raw, next, memo, keys[1..], key);
    }
  }

  lemma {:induction false} FaithfulInherited(known: Catalogue, raw: Overwrites, data: Overwrites, t: TypeName,
      key: string)
    requires Acyclic(known) && Faithful(known, raw, data, key)
    ensures Inherited(known, data, t, key) == Inherited(known, raw, t, key)
    decreases Rank(known, t), 1, 0
  {
    ParentsRankLower(known, t);
    if t in data { assert FaithfulTo(known, raw, t, Some(data[t]), key); }
    FaithfulFirst(known, raw, data, Rank(known, t), Extends(known, t), key);
  }

  lemma {:induction false} FaithfulFirst(known: Catalogue, raw: Overwrites, data: Overwrites, level: nat,
      types: seq<TypeName>, key: string)
    requires Acyclic(known) && Faithful(known, raw, data, key) && Below(known, types, level)
    ensures FirstInherited(known, data, level, types, key) == FirstInherited(known, raw, level, types, key)
    decreases level, 0, |types|
  {
    hide Faithful;
    if types != [] {
      assert types[0] in types && Below(known, types[1..], level);
      FaithfulInherited(known, raw, data, types[0], key);
      FaithfulFirst(known, raw, data, level, types[1..], key);
    }
  }

  lemma CoherentKept(known: Catalogue, raw: Overwrites, data: Overwrites, key: string)
    requires Acyclic(known) && Coherent(known, raw, key) && Faithful(known, raw, data, key)
    ensures Coherent(known, data, key)
  {
    forall t ensures Defines(data, t, key) || AgreeOn(known, data, Extends(known, t), key) {
      if Defines(raw, t, key) {
        assert FaithfulTo(known, raw, t, Some(data[t]), key);
      } else {
        assert AgreeOn(known, raw, Extends(known, t), key);
        forall p | p in Extends(known, t) ensures Inherited(known, data, p, key) == Inherited(known, raw, p, key) {
          FaithfulInherited(known, raw, data, p, key);
        }
        hide Inherited;
      }
    }
  }

  /** On any acyclic hierarchy, several parents included: as long as parents agree on the
      key wherever a type leaves it to them, reads neither depend on denormalising, nor on
      the key order, nor on the memo. */
  lemma CoherentOverwrites(known: Catalogue, raw: Overwrites, keys: seq<TypeName>, t: TypeName, key: string)
    requires Acyclic(known) && Coherent(known, raw, key)
    ensures Field(Get(known, Denormalise(known, raw, [], keys), t), key) == Inherited(known, raw, t, key)
    ensures Field(Get(known, raw, t), key) == Inherited(known, raw, t, key)
  {
    var data := Denormalise(known, raw, [], keys);
    RawIsFaithful(known, raw, key);
    DenormaliseFaithful(known, raw, raw, [], keys, key);
    CoherentKept(known, raw, data, key);
    FaithfulInherited(known, raw, data, t, key);
    GetIsInherited(known, data, t, key);
    GetIsInherited(known, raw, t, key);
  }

  lemma RawIsFaithful(known: Catalogue, raw: Overwrites, key: string)
    requires Acyclic(known)
    ensures Faithful(known, raw, raw, key)
  {
  }

  /** Whatever order the keys are visited in, and however the memo leaves the stored
      entries, `get` answers every key with the nearest raw definition. */
  lemma InheritedOverwrites(known: Catalogue, raw: Overwrites, keys: seq<TypeName>, t: TypeName, key: string)
    requires Acyclic(known) && SingleInheritance(known)
    ensures Field(Get(known, Denormalise(known, raw, [], keys), t), key) == Nearest(known, raw, t, key)
  {
    SingleIsCoherent(known, raw, key);
    CoherentOverwrites(known, raw, keys, t, key);
    NearestIsInherited(known, raw, t, key);
  }

  /** A pass over keys of the map adds and removes none. */
  lemma {:induction false} DenormaliseKeys(known: Catalogue, data: Overwrites, resolved: seq<TypeName>,
      keys: seq<TypeName>)
    requires Acyclic(known) && forall k :: k in keys ==> k in data
    ensures Denormalise(known, data, resolved, keys).Keys == data.Keys
    decreases |keys|
  {
    if keys != [] {
      var (own, memo) := Resolve(known, data, resolved, keys[0]);
      var next := if own.Some? && own.value != map[] then data[keys[0] := own.value] else data;
      DenormaliseKeys(known, next, memo, keys[1..]);
    }
  }

  lemma FieldsEqual(a: Fields, b: Fields)
    requires forall k :: Field(a, k) == Field(b, k)
    ensures a == b
  {
    assert forall k :: (k in a <==> Field(a, k).Some?) && (k in b <==> Field(b, k).Some?);
  }

  /** Saving the denormalised map and loading it again, in any two orders, leaves what
      `get` returns unchanged. */
  lemma ReloadStable(known: Catalogue, raw: Overwrites, saved: seq<TypeName>, loaded: seq<TypeName>, t: TypeName)
    requires Acyclic(known) && SingleInheritance(known)
    ensures var stored := Denormalise(known, raw, [], saved);
            Get(known, Denormalise(known, stored, [], loaded), t) == Get(known, stored, t)
  {
    var stored := Denormalise(known, raw, [], saved);
    forall key
      ensures Field(Get(known, Denormalise(known, stored, [], loaded), t), key) == Field(Get(known, stored, t), key)
    {
      SingleIsCoherent(known, stored, key);
      CoherentOverwrites(known, stored, loaded, t, key);
    }
    FieldsEqual(Get(known, Denormalise(known, stored, [], loaded), t), Get(known, stored, t));
  }

  /** Applying overwrites: a field that is there and neither null nor empty is never touched,
      any other one takes the nearest definition, and applying twice is applying once. */
  lemma AppliedNearest(known: Catalogue, raw: Overwrites, keys: seq<TypeName>, t: TypeName, data: Fields, r: Fields,
      key: string)
    requires Acyclic(known) && SingleInheritance(known)
    requires Applied(Get(known, Denormalise(known, raw, [], keys), t), data, r)
    ensures key in data && data[key] != Null && data[key] != Text("") ==> Field(r, key) == Some(data[key])
    ensures key !in data || data[key] == Null || data[key] == Text("") ==>
              Field(r, key)
                == if Nearest(known, raw, t, key).Some? then Nearest(known, raw, t, key) else Field(data, key)
    ensures Applied(Get(known, Denormalise(known, raw, [], keys), t), r, r)
  {
    InheritedOverwrites(known, raw, keys, t, key);
  }

  // ---------- Which hierarchies are safe ----------

  /** A pass visits every key of the map once, in some order. */
  ghost predicate Enumerates(keys: seq<TypeName>, raw: Overwrites) {
    (forall k :: k in keys <==> k in raw) && Unrepeated(keys)
  }

  ghost predicate Unrepeated(keys: seq<TypeName>) { forall i, j :: 0 <= i < j < |keys| ==> keys[i] != keys[j] }

  /** Denormalising changes no read. */
  ghost predicate ReadsStable(known: Catalogue, raw: Overwrites, keys: seq<TypeName>)
    requires Acyclic(known)
  {
    forall t, key :: Field(Get(known, Denormalise(known, raw, [], keys), t), key) == Field(Get(known, raw, t), key)
  }

  /** Every `extends` list names known types, each once. */
  ghost predicate Tidy(known: Catalogue) {
    && (forall t, p :: p in Extends(known, t) ==> p in known)
    && forall t :: Unrepeated(Extends(known, t))
  }

  lemma TailUnrepeated(keys: seq<TypeName>)
    requires Unrepeated(keys) && keys != []
    ensures Unrepeated(keys[1..]) && keys[0] !in keys[1..]
  {
    assert forall i :: 0 <= i < |keys[1..]| ==> keys[1..][i] == keys[i + 1];
  }

  predicate IsRoot(known: Catalogue, t: TypeName) { t in known && known[t].parents.None? }

  lemma RootResolves(known: Catalogue, data: Overwrites, resolved: seq<TypeName>, t: TypeName)
    requires Acyclic(known) && IsRoot(known, t)
    ensures Resolve(known, data, resolved, t) == (Lookup(data, t), if t in resolved then resolved else resolved + [t])
  {
  }

  /** A pass leaves the entry of a root, and of a type it does not visit, as it was. */
  lemma {:induction false} Untouched(known: Catalogue, data: Overwrites, resolved: seq<TypeName>, keys: seq<TypeName>,
      t: TypeName)
    requires Acyclic(known) && (IsRoot(known, t) || t !in keys)
    ensures Lookup(Denormalise(known, data, resolved, keys), t) == Lookup(data, t)
    decreases |keys|
  {
    hide Resolve, Acyclic;
    if keys != [] {
      var (own, memo) := Resolve(known, data, resolved, keys[0]);
      if keys[0] == t { RootResolves(known, data, resolved, t); }
      var next := if own.Some? && own.value != map[] then data[keys[0] := own.value] else data;
      Untouched(known, next, memo, keys[1..], t);
    }
  }

  lemma OwnKept(known: Catalogue, data: Overwrites, resolved: seq<TypeName>, t: TypeName, key: string)
    requires Acyclic(known) && t in known && Defines(data, t, key)
    ensures var own := Resolve(known, data, resolved, t).0;
            own.Some? && Field(own.value, key) == Some(data[t][key])
  {
    ParentsRankLower(known, t);
    hide ResolveParents;
  }

  /** The merge of the parents keeps what the last of them defines itself. */
  lemma {:induction false} LastParentWins(known: Catalogue, data: Overwrites, resolved: seq<TypeName>,
                                          level: nat, parents: seq<TypeName>, acc: Fields, key: string)
    requires Acyclic(known) && Below(known, parents, level) && parents != []
    requires parents[|parents| - 1] in known && Defines(data, parents[|parents| - 1], key)
    ensures Field(ResolveParents(known, data, resolved, level, parents, acc).0, key)
         == Some(data[parents[|parents| - 1]][key])
    decreases |parents|
  {
    hide Resolve, Acyclic;
    assert parents[0] in parents && Below(known, parents[1..], level);
    var (own, memo) := Resolve(known, data, resolved, parents[0]);
    if |parents| == 1 {
      OwnKept(known, data, resolved, parents[0], key);
      assert parents[1..] == [];
    } else {
      LastParentWins(known, data, memo, level, parents[1..], if own.Some? then acc + own.value else acc, key);
    }
  }

  /** A read keeps what the first parent defines. */
  lemma FirstParentRead(known: Catalogue, data: Overwrites, t: TypeName, key: string)
    requires Acyclic(known) && Extends(known, t) != [] && !Defines(data, t, key)
    requires Defines(data, Extends(known, t)[0], key)
    ensures Field(Get(known, data, t), key) == Some(data[Extends(known, t)[0]][key])
  {
    ListStarts(known, t);
    OverlayReversed(data, [t] + ParentTypes(known, t), key);
    hide ParentTypes, Acyclic, Overlay, Extends;
    assert ([t] + ParentTypes(known, t))[1..] == ParentTypes(known, t);
    assert ParentTypes(known, t)[0] == Extends(known, t)[0];
  }

  lemma OwnRead(known: Catalogue, data: Overwrites, t: TypeName, key: string)
    requires Acyclic(known) && Defines(data, t, key)
    ensures Field(Get(known, data, t), key) == Some(data[t][key])
  {
    OverlayReversed(data, [t] + ParentTypes(known, t), key);
    hide ParentTypes, Acyclic, Overlay;
  }

  /** A type with several parents: an overwrite of its first and one of its last parent,
      with the type itself visited first. */
  lemma SeveralParentsUnstable(known: Catalogue, t: TypeName) returns (raw: Overwrites, keys: seq<TypeName>)
    requires Acyclic(known) && Tidy(known) && |Extends(known, t)| >= 2
    ensures Enumerates(keys, raw) && !ReadsStable(known, raw, keys)
  {
    var parents := Extends(known, t);
    var first, last := parents[0], parents[|parents| - 1];
    ParentsRankLower(known, t);
    assert first in parents && last in parents && t !in parents && last in known && first != last;
    hide *;
    raw, keys := Rivals(t, first, last);
    FirstParentRead(known, raw, t, "k");
    LastParentWins(known, raw, [], Rank(known, t), parents, map[], "k");
    MergedFirst(known, raw, t, [first, last], "k", Other(2));
    OwnRead(known, Denormalise(known, raw, [], keys), t, "k");
    UnstableAt(known, raw, keys, t, "k");
  }

  lemma Rivals(t: TypeName, first: TypeName, last: TypeName) returns (raw: Overwrites, keys: seq<TypeName>)
    requires t != first && t != last && first != last
    ensures Enumerates(keys, raw) && keys == [t] + [first, last] && t !in [first, last]
    ensures t in raw && "k" !in raw[t] && !Defines(raw, t, "k")
    ensures Defines(raw, first, "k") && raw[first]["k"] == Other(1)
    ensures Defines(raw, last, "k") && raw[last]["k"] == Other(2)
  {
    raw, keys := map[t := map[], first := map["k" := Other(1)], last := map["k" := Other(2)]], [t, first, last];
  }

  lemma UnstableAt(known: Catalogue, raw: Overwrites, keys: seq<TypeName>, t: TypeName, key: string)
    requires Acyclic(known)
    requires Field(Get(known, Denormalise(known, raw, [], keys), t), key) != Field(Get(known, raw, t), key)
    ensures !ReadsStable(known, raw, keys)
  {
    hide Get, Denormalise, Acyclic;
  }

  /** Visited first, a type is stored with what its parents merge to. */
  lemma MergedFirst(known: Catalogue, raw: Overwrites, t: TypeName, rest: seq<TypeName>, key: string, v: Value)
    requires Acyclic(known) && Extends(known, t) != [] && t in raw && key !in raw[t] && t !in rest
    requires Below(known, Extends(known, t), Rank(known, t))
    requires Field(ResolveParents(known, raw, [], Rank(known, t), Extends(known, t), map[]).0, key) == Some(v)
    ensures var data := Denormalise(known, raw, [], [t] + rest); Defines(data, t, key) && data[t][key] == v
  {
    hide ResolveParents, Acyclic, Below, Rank;
    var (own, memo) := Resolve(known, raw, [], t);
    assert own.Some? && Field(own.value, key) == Some(v);
    var next := raw[t := own.value];
    assert ([t] + rest)[1..] == rest && own.value != map[];
    assert Denormalise(known, raw, [], [t] + rest) == Denormalise(known, next, memo, rest);
    Untouched(known, next, memo, rest, t);
  }

  /** Denormalising changes no read, whatever the overwrites and the key order, if and only
      if no type extends two others: the stored merge lets the last parent win, the read
      the first one. */
  lemma SingleInheritanceIsExact(known: Catalogue)
    requires Acyclic(known) && Tidy(known)
    ensures SingleInheritance(known) <==> forall raw, keys :: Enumerates(keys, raw) ==> ReadsStable(known, raw, keys)
  {
    hide ReadsStable, Acyclic, Tidy, Enumerates;
    if SingleInheritance(known) {
      forall raw, keys | Enumerates(keys, raw) ensures ReadsStable(known, raw, keys) {
        SingleIsStable(known, raw, keys);
      }
    } else {
      var t :| |Extends(known, t)| > 1;
      var raw, keys := SeveralParentsUnstable(known, t);
    }
  }

  lemma SingleIsStable(known: Catalogue, raw: Overwrites, keys: seq<TypeName>)
    requires Acyclic(known) && SingleInheritance(known)
    ensures ReadsStable(known, raw, keys)
  {
    hide Get, Denormalise, Acyclic;
    forall t, key
      ensures Field(Get(known, Denormalise(known, raw, [], keys), t), key) == Field(Get(known, raw, t), key)
    {
      SingleIsCoherent(known, raw, key);
      CoherentOverwrites(known, raw, keys, t, key);
    }
  }

  // ---------- Two parents ----------

  function Entry(data: Overwrites, t: TypeName): Fields { if t in data then data[t] else map[] }

  predicate TwoRoots(known: Catalogue, t: TypeName, p: TypeName, q: TypeName) {
    t in known && known[t].parents == Some([p, q]) && IsRoot(known, p) && IsRoot(known, q)
  }

  lemma TwoRootsMerge(known: Catalogue, data: Overwrites, resolved: seq<TypeName>,
                      t: TypeName, p: TypeName, q: TypeName)
    requires Acyclic(known) && TwoRoots(known, t, p, q) && t in data && t !in resolved
    ensures Resolve(known, data, resolved, t).0 == Some(Entry(data, p) + Entry(data, q) + data[t])
  {
    ParentsRankLower(known, t);
    assert Extends(known, t) == [p, q] && p in [p, q] && q in [p, q];
    var level, memo := Rank(known, t), Resolve(known, data, resolved, p).1;
    RootResolves(known, data, resolved, p);
    RootResolves(known, data, memo, q);
    assert [p, q][1..] == [q] && [q][1..] == [];
    var last := Resolve(known, data, memo, q).1;
    assert map[] + Entry(data, p) == Entry(data, p) && Entry(data, p) + map[] == Entry(data, p);
    assert ResolveParents(known, data, memo, level, [q], Entry(data, p)) == (Entry(data, p) + Entry(data, q), last);
    assert ResolveParents(known, data, resolved, level, [p, q], map[]) == (Entry(data, p) + Entry(data, q), last);
  }

  /** Resolving a type memoises nothing but the type and its ancestors. */
  lemma {:induction false} MemoGrows(known: Catalogue, data: Overwrites, resolved: seq<TypeName>, t: TypeName,
      x: TypeName)
    requires Acyclic(known) && x in Resolve(known, data, resolved, t).1
    ensures x in resolved || x == t || Ancestor(known, t, x)
    decreases Rank(known, t), 1, 0
  {
    ParentsRankLower(known, t);
    if t in known && t !in resolved && known[t].parents.Some? && x != t {
      ParentsMemoGrows(known, data, resolved, Rank(known, t), Extends(known, t), map[], x);
      if x !in resolved {
        var p :| p in Extends(known, t) && (x == p || Ancestor(known, p, x));
        ParentIsAncestor(known, t, p);
        if x != p { AncestorThroughParent(known, t, p, x); }
      }
    }
  }

  lemma {:induction false} ParentsMemoGrows(known: Catalogue, data: Overwrites, resolved: seq<TypeName>,
                                            level: nat, parents: seq<TypeName>, acc: Fields, x: TypeName)
    requires Acyclic(known) && Below(known, parents, level)
    requires x in ResolveParents(known, data, resolved, level, parents, acc).1
    ensures x in resolved || exists p :: p in parents && (x == p || Ancestor(known, p, x))
    decreases level, 0, |parents|
  {
    hide Resolve, Ancestor, Acyclic;
    if parents != [] {
      assert parents[0] in parents && Below(known, parents[1..], level);
      var (own, memo) := Resolve(known, data, resolved, parents[0]);
      ParentsMemoGrows(known, data, memo, level, parents[1..], if own.Some? then acc + own.value else acc, x);
      if x in memo {
        MemoGrows(known, data, resolved, parents[0], x);
      } else {
        var p :| p in parents[1..] && (x == p || Ancestor(known, p, x));
        assert p in parents;
      }
    }
  }

  /** A pass without a descendant of `t` stores what its two root parents merge to. */
  lemma {:induction false} TwoRootsPass(known: Catalogue, data: Overwrites, resolved: seq<TypeName>,
                                        keys: seq<TypeName>, t: TypeName, p: TypeName, q: TypeName)
    requires Acyclic(known) && TwoRoots(known, t, p, q) && t in data && t !in resolved && t in keys
    requires Unrepeated(keys) && forall k :: k in keys ==> !Ancestor(known, k, t)
    ensures Lookup(Denormalise(known, data, resolved, keys), t)
         == Some(Entry(data, p) + Entry(data, q) + data[t])
    decreases |keys|
  {
    hide Resolve, Acyclic, Ancestor, Unrepeated;
    TailUnrepeated(keys);
    var (own, memo) := Resolve(known, data, resolved, keys[0]);
    var next := if own.Some? && own.value != map[] then data[keys[0] := own.value] else data;
    if keys[0] == t {
      TwoRootsMerge(known, data, resolved, t, p, q);
      Untouched(known, next, memo, keys[1..], t);
    } else {
      if keys[0] == p { RootResolves(known, data, resolved, p); }
      if keys[0] == q { RootResolves(known, data, resolved, q); }
      assert Entry(next, p) == Entry(data, p) && Entry(next, q) == Entry(data, q) && next[t] == data[t];
      if t in memo { MemoGrows(known, data, resolved, keys[0], t); }
      TwoRootsPass(known, next, memo, keys[1..], t, p, q);
    }
  }

  lemma RootListsNothing(known: Catalogue, p: TypeName)
    requires Acyclic(known) && Extends(known, p) == []
    ensures ParentTypes(known, p) == []
  {
  }

  lemma TwoRootsListed(known: Catalogue, t: TypeName, p: TypeName, q: TypeName)
    requires Acyclic(known) && TwoRoots(known, t, p, q)
    ensures ParentTypes(known, t) == [p, q]
  {
    ParentsRankLower(known, t);
    RootListsNothing(known, p);
    RootListsNothing(known, q);
    var level := Rank(known, t);
    assert Extends(known, t) == [p, q] && [p, q][1..] == [q] && [q][1..] == [];
    assert ParentTypes(known, t) == Generations(known, level, [p, q]);
    hide ParentTypes, Contributed, Generations, Rank;
    GenerationStep(known, level, [p, q]);
    ContributedStep(known, level, [p, q]);
    ContributedStep(known, level, [q]);
    NoGeneration(known, level);
    NoGeneration(known, level - 1);
  }

  /** The read below two root parents: the type itself, then the first, then the second. */
  lemma TwoRootsRead(known: Catalogue, data: Overwrites, t: TypeName, p: TypeName, q: TypeName, key: string)
    requires Acyclic(known) && TwoRoots(known, t, p, q)
    ensures Field(Get(known, data, t), key)
         == if Defines(data, t, key) then Some(data[t][key]) else if Defines(data, p, key) then Some(data[p][key])
            else if Defines(data, q, key) then Some(data[q][key]) else None
  {
    TwoRootsListed(known, t, p, q);
    var listed := [t] + ParentTypes(known, t);
    OverlayReversed(data, listed, key);
    assert listed[1..] == [p, q] && [p, q][1..] == [q] && [q][1..] == [];
    assert FirstDefining(data, [q], key) == if Defines(data, q, key) then Some(data[q][key]) else None;
    assert FirstDefining(data, [p, q], key)
        == if Defines(data, p, key) then Some(data[p][key]) else FirstDefining(data, [q], key);
  }

  /** Below two root parents, a pass over all the overwrites, in any order, leaves the read
      of a key as it was if and only if the type defines the key, or one parent does not,
      or both give it one value. A descendant visited before it would hide its merge. */
  lemma TwoParentsAgree(known: Catalogue, raw: Overwrites, keys: seq<TypeName>,
                        t: TypeName, p: TypeName, q: TypeName, key: string)
    requires Acyclic(known) && TwoRoots(known, t, p, q) && t in raw && Enumerates(keys, raw)
    requires forall k :: k in raw ==> !Ancestor(known, k, t)
    ensures Field(Get(known, Denormalise(known, raw, [], keys), t), key) == Field(Get(known, raw, t), key)
       <==> Defines(raw, t, key) || !Defines(raw, p, key) || !Defines(raw, q, key) || raw[p][key] == raw[q][key]
  {
    hide Denormalise, Get, Ancestor, Acyclic;
    TwoRootsPass(known, raw, [], keys, t, p, q);
    Untouched(known, raw, [], keys, p);
    Untouched(known, raw, [], keys, q);
    TwoRootsRead(known, raw, t, p, q, key);
    TwoRootsRead(known, Denormalise(known, raw, [], keys), t, p, q, key);
  }

  /** Otherwise there is no single answer: the merge keeps the last parent's value, the
      read keeps the first one's. */
  lemma TwoParentsDisagree(known: Catalogue, raw: Overwrites, keys: seq<TypeName>,
                           t: TypeName, p: TypeName, q: TypeName, key: string)
    requires Acyclic(known) && TwoRoots(known, t, p, q) && t in raw && Enumerates(keys, raw)
    requires forall k :: k in raw ==> !Ancestor(known, k, t)
    requires !Defines(raw, t, key) && Defines(raw, p, key) && Defines(raw, q, key)
    ensures Field(Get(known, raw, t), key) == Some(raw[p][key])
    ensures Field(Get(known, Denormalise(known, raw, [], keys), t), key) == Some(raw[q][key])
  {
    hide Denormalise, Get, Ancestor, Acyclic;
    TwoRootsPass(known, raw, [], keys, t, p, q);
    TwoRootsRead(known, raw, t, p, q, key);
    TwoRootsRead(known, Denormalise(known, raw, [], keys), t, p, q, key);
  }

  // ---------- The memo ----------

  lemma OneParentResolves(known: Catalogue, data: Overwrites, resolved: seq<TypeName>, t: TypeName, p: TypeName)
    requires Acyclic(known) && t in known && known[t].parents == Some([p]) && t !in resolved
    ensures var (own, memo) := Resolve(known, data, resolved, p);
            var inherited := if own.Some? then own.value else map[];
            Resolve(known, data, resolved, t)
            == (Some(if t in data then inherited + data[t] else inherited), memo + [t])
  {
    ParentsRankLower(known, t);
    var (own, memo) := Resolve(known, data, resolved, p);
    assert Extends(known, t) == [p] && p in [p] && [p][1..] == [];
    assert own.Some? ==> map[] + own.value == own.value;
    assert ResolveParents(known, data, resolved, Rank(known, t), [p], map[])
        == (if own.Some? then own.value else map[], memo);
  }

  predicate Before(keys: seq<TypeName>, a: TypeName, b: TypeName) {
    exists i, j :: 0 <= i < j < |keys| && keys[i] == a && keys[j] == b
  }

  lemma BeforeTail(keys: seq<TypeName>, a: TypeName, b: TypeName)
    requires keys != []
    ensures Before(keys, a, b) <==> (keys[0] == a && b in keys[1..]) || Before(keys[1..], a, b)
  {
    if i, j :| 0 <= i < j < |keys| && keys[i] == a && keys[j] == b {
      if i > 0 { assert keys[1..][i - 1] == a && keys[1..][j - 1] == b; }
      assert keys[1..][j - 1] == b;
    }
    if keys[0] == a && b in keys[1..] {
      var j :| 0 <= j < |keys[1..]| && keys[1..][j] == b;
      assert keys[0] == a && keys[j + 1] == b;
    }
    if i, j :| 0 <= i < j < |keys[1..]| && keys[1..][i] == a && keys[1..][j] == b {
      assert keys[i + 1] == a && keys[j + 1] == b;
    }
  }

  /** A chain of three types, the child first. */
  predicate Chain(known: Catalogue, c: TypeName, p: TypeName, g: TypeName) {
    && c in known && known[c].parents == Some([p]) && p in known && known[p].parents == Some([g]) && IsRoot(known, g)
    && c != p && c != g
  }

  lemma ChildResolves(known: Catalogue, data: Overwrites, resolved: seq<TypeName>,
                      c: TypeName, p: TypeName, g: TypeName)
    requires Acyclic(known) && Chain(known, c, p, g) && c !in resolved
    ensures p in Resolve(known, data, resolved, c).1
  {
    OneParentResolves(known, data, resolved, c, p);
    if p !in resolved { OneParentResolves(known, data, resolved, p, g); }
  }

  lemma ParentResolves(known: Catalogue, data: Overwrites, resolved: seq<TypeName>, p: TypeName, g: TypeName)
    requires Acyclic(known) && p in known && known[p].parents == Some([g]) && IsRoot(known, g)
    requires p in data && g in data
    ensures Resolve(known, data, resolved, p).0 == Some(if p in resolved then data[p] else data[g] + data[p])
  {
    RootResolves(known, data, resolved, g);
    if p !in resolved { OneParentResolves(known, data, resolved, p, g); }
  }

  lemma {:induction false} ChainPass(known: Catalogue, data: Overwrites, resolved: seq<TypeName>, keys: seq<TypeName>,
                                     c: TypeName, p: TypeName, g: TypeName)
    requires Acyclic(known) && Chain(known, c, p, g) && c in data && p in data && g in data
    requires p in keys && Unrepeated(keys) && (c in keys ==> c !in resolved)
    requires forall k :: k in keys ==> k == c || k == p || k == g
    ensures Lookup(Denormalise(known, data, resolved, keys), p)
         == Some(if p in resolved || Before(keys, c, p) then data[p] else data[g] + data[p])
    decreases |keys|
  {
    hide Resolve, Acyclic, Before, Unrepeated;
    TailUnrepeated(keys);
    BeforeTail(keys, c, p);
    var (own, memo) := Resolve(known, data, resolved, keys[0]);
    var next := if own.Some? && own.value != map[] then data[keys[0] := own.value] else data;
    if keys[0] == p {
      ParentResolves(known, data, resolved, p, g);
      Untouched(known, next, memo, keys[1..], p);
      NeverBefore(keys[1..], c, p);
    } else {
      assert forall k :: k in keys[1..] ==> k in keys;
      if keys[0] == c {
        ChildResolves(known, data, resolved, c, p, g);
      } else {
        assert keys[0] in keys && keys[0] == g;
        RootResolves(known, data, resolved, g);
      }
      ChainPass(known, next, memo, keys[1..], c, p, g);
    }
  }

  lemma NeverBefore(keys: seq<TypeName>, a: TypeName, b: TypeName)
    requires b !in keys
    ensures !Before(keys, a, b)
  {
  }

  /** The memo makes the stored map depend on the key order: the entry of the middle type
      stays raw if the pass comes to its child first, and is merged otherwise. */
  lemma StoredEntriesDependOnOrder(known: Catalogue, raw: Overwrites, keys: seq<TypeName>,
                                   c: TypeName, p: TypeName, g: TypeName)
    requires Acyclic(known) && Chain(known, c, p, g) && raw.Keys == {c, p, g} && Enumerates(keys, raw)
    ensures Lookup(Denormalise(known, raw, [], keys), p)
         == Some(if Before(keys, c, p) then raw[p] else raw[g] + raw[p])
  {
    hide Denormalise, Acyclic, Before;
    ChainPass(known, raw, [], keys, c, p, g);
  }

  // ---------- The service ----------

  ghost function Without(overwrites: Fields, left: set<string>): Fields {
    map k | k in overwrites && k !in left :: overwrites[k]
  }

  lemma AppliedNone(overwrites: Fields, data: Fields)
    ensures Applied(Without(overwrites, overwrites.Keys), data, data)
  {
    assert Without(overwrites, overwrites.Keys) == map[];
  }

  lemma AppliedStep(overwrites: Fields, left: set<string>, data: Fields, r: Fields, key: string)
    requires key in left && left <= overwrites.Keys && Applied(Without(overwrites, left), data, r)
    ensures Applied(Without(overwrites, left - {key}), data,
                    if IsUnset(Lookup(r, key)) then r[key := overwrites[key]] else r)
  {
  }

  class CredentialsOverwrites {
    var overwriteData: Overwrites
    var resolvedTypes: seq<TypeName>
    var stored: Option<Overwrites>
    const credentialTypes: CredentialTypes
    const persistence: bool

    constructor (credentialTypes: CredentialTypes, persistence: bool)
      ensures overwriteData == map[] && resolvedTypes == [] && stored == None
      ensures this.credentialTypes == credentialTypes && this.persistence == persistence
    {
      this.credentialTypes, this.persistence := credentialTypes, persistence;
      overwriteData, resolvedTypes, stored := map[], [], None;
    }

    method GetOverwrites(t: TypeName) returns (r: Option<Fields>)
      requires Acyclic(credentialTypes.knownCredentials)
      modifies `resolvedTypes
      ensures (r, resolvedTypes) == Resolve(credentialTypes.knownCredentials, overwriteData, old(resolvedTypes), t)
      decreases Rank(credentialTypes.knownCredentials, t)
    {
      ghost var known := credentialTypes.knownCredentials;
      if t in resolvedTypes {
        return Lookup(overwriteData, t);
      }
      if t !in credentialTypes.knownCredentials {
        return None;
      }
      var declared := credentialTypes.knownCredentials[t].parents;
      if declared.None? {
        resolvedTypes := resolvedTypes + [t];
        return Lookup(overwriteData, t);
      }
      var overwrites: Fields := map[];
      var parents := declared.value;
      ParentsRankLower(known, t);
      for i := 0 to |parents|
        invariant Below(known, parents[i..], Rank(known, t))
        invariant ResolveParents(known, overwriteData, old(resolvedTypes), Rank(known, t), parents, map[])
               == ResolveParents(known, overwriteData, resolvedTypes, Rank(known, t), parents[i..], overwrites)
      {
        assert parents[i..][0] == parents[i] && parents[i] in parents[i..] && parents[i..][1..] == parents[i + 1..];
        var inherited := GetOverwrites(parents[i]);
        if inherited.Some? {
          overwrites := overwrites + inherited.value;
        }
      }
      if t in overwriteData {
        overwrites := overwrites + overwriteData[t];
      }
      resolvedTypes := resolvedTypes + [t];
      r := Some(overwrites);
    }

    /** `keys` is the order in which the object's own keys are enumerated. */
    method SetPlainData(data: Overwrites, keys: seq<TypeName>)
      requires Acyclic(credentialTypes.knownCredentials)
      modifies `overwriteData, `resolvedTypes
      ensures overwriteData == Denormalise(credentialTypes.knownCredentials, data, [], keys)
    {
      ghost var known := credentialTypes.knownCredentials;
      resolvedTypes := [];
      overwriteData := data;
      for i := 0 to |keys|
        invariant Denormalise(known, data, [], keys) == Denormalise(known, overwriteData, resolvedTypes, keys[i..])
      {
        assert keys[i..][0] == keys[i] && keys[i..][1..] == keys[i + 1..];
        var overwrites := GetOverwrites(keys[i]);
        if overwrites.Some? && overwrites.value != map[] {
          overwriteData := overwriteData[keys[i] := overwrites.value];
        }
      }
    }

    /** Stores what `SetPlainData` left, not what it was given. */
    method SetData(data: Overwrites, keys: seq<TypeName>, storeInDb: bool)
      requires Acyclic(credentialTypes.knownCredentials)
      modifies this
      ensures overwriteData == Denormalise(credentialTypes.knownCredentials, data, [], keys)
      ensures stored == if storeInDb && persistence then Some(overwriteData) else old(stored)
    {
      SetPlainData(data, keys);
      if storeInDb && persistence {
        stored := Some(overwriteData);
      }
    }

    method LoadOverwriteDataFromDb(keys: seq<TypeName>)
      requires Acyclic(credentialTypes.knownCredentials)
      modifies this
      ensures stored == old(stored)
      ensures overwriteData
           == if old(stored).Some? then Denormalise(credentialTypes.knownCredentials, old(stored).value, [], keys)
                               else old(overwriteData)
    {
      if stored.Some? {
        SetData(stored.value, keys, false);
      }
    }

    method Read(t: TypeName) returns (r: Fields)
      requires Acyclic(credentialTypes.knownCredentials)
      ensures r == Get(credentialTypes.knownCredentials, overwriteData, t)
    {
      var parents := credentialTypes.GetParentTypes(t);
      r := Overlay(overwriteData, Reverse([t] + parents));
    }

    method ApplyOverwrite(t: TypeName, data: Fields) returns (r: Fields)
      requires Acyclic(credentialTypes.knownCredentials)
      ensures Applied(Get(credentialTypes.knownCredentials, overwriteData, t), data, r)
      ensures forall key :: key in data && data[key] != Null && data[key] != Text("") ==>
                Field(r, key) == Some(data[key])
      ensures forall key :: key !in data || data[key] == Null || data[key] == Text("") ==>
                var overwrites := Get(credentialTypes.knownCredentials, overwriteData, t);
                Field(r, key) == if key in overwrites then Some(overwrites[key]) else Field(data, key)
    {
      var overwrites := Read(t);
      r := data;
      var left := overwrites.Keys;
      AppliedNone(overwrites, data);
      while left != {}
        invariant left <= overwrites.Keys && Applied(Without(overwrites, left), data, r)
      {
        hide *;
        var key :| key in left;
        AppliedStep(overwrites, left, data, r, key);
        if IsUnset(Lookup(r, key)) {
          r := r[key := overwrites[key]];
        }
        left := left - {key};
      }
      assert Without(overwrites, {}) == overwrites;
    }

    /** Persisting and reloading through the service is invisible to readers. */
    method SaveThenReload(data: Overwrites, saved: seq<TypeName>, loaded: seq<TypeName>, t: TypeName)
      returns (before: Fields, after: Fields)
      requires Acyclic(credentialTypes.knownCredentials) && SingleInheritance(credentialTypes.knownCredentials)
      requires persistence
      modifies this
      ensures after == before
      ensures forall key :: Field(after, key) == Nearest(credentialTypes.knownCredentials, data, t, key)
    {
      ghost var known := credentialTypes.knownCredentials;
      SetData(data, saved, true);
      before := Read(t);
      LoadOverwriteDataFromDb(loaded);
      after := Read(t);
      ReloadStable(known, data, saved, loaded, t);
      forall key
        ensures Field(before, key) == Nearest(known, data, t, key)
      {
        InheritedOverwrites(known, data, saved, t, key);
      }
    }
  }
}
