/** Replacing invalid node credentials through two caches over the credential table
    (packages/cli/src/workflow-helpers.ts). */
module CredentialRepair {
  import opened Options
  import opened Sequences

  datatype Row = Row(id: string, name: string, kind: string)

  /** `Legacy` is the old string form; `Details` carries a nullable id. */
  datatype Credential = Legacy(text: string) | Details(id: Option<string>, name: string)

  /** One entry of a node's `credentials` object: its credential type and value. */
  datatype Slot = Slot(kind: string, credential: Credential)

  datatype Node = Node(disabled: bool, credentials: Option<seq<Slot>>)

  type Key = (string, string)

  datatype Caches = Caches(byName: map<Key, Credential>, byId: map<Key, Credential>)

  const FRESH := Caches(map[], map[])

  // ---------- The table ----------

  function ByName(table: seq<Row>, kind: string, name: string): seq<Row> {
    if table == [] then [] else
    (if table[0].name == name && table[0].kind == kind then [table[0]] else []) + ByName(table[1..], kind, name)
  }

  function ById(table: seq<Row>, kind: string, id: string): Option<Row> {
    if table == [] then None
    else if table[0].id == id && table[0].kind == kind then Some(table[0])
    else ById(table[1..], kind, id)
  }

  predicate UniqueIds(table: seq<Row>) {
    forall j, k :: 0 <= j < k < |table| ==> table[j].id != table[k].id
  }

  function DetailsOf(row: Row): Credential { Details(Some(row.id), row.name) }

  // ---------- The uncached lookup ----------

  predicate Unidentified(c: Credential) { c.Legacy? || c.id.None? }

  function NameOf(c: Credential): string { if c.Legacy? then c.text else c.name }

  /** By id, then by a name that is unique for the type; None when neither resolves. */
  function Direct(table: seq<Row>, slot: Slot): Option<Credential> {
    var named := ByName(table, slot.kind, NameOf(slot.credential));
    var unique := if |named| == 1 then Some(DetailsOf(named[0])) else None;
    if Unidentified(slot.credential) then unique
    else match ById(table, slot.kind, slot.credential.id.value)
      case Some(row) => Some(DetailsOf(row))
      case None => unique
  }

  function Uncached(table: seq<Row>, slot: Slot): Credential {
    if Direct(table, slot).Some? then Direct(table, slot).value else slot.credential
  }

  // ---------- One slot through the caches ----------

  function RepairNamed(table: seq<Row>, caches: Caches, slot: Slot): (Credential, Caches)
    requires Unidentified(slot.credential)
  {
    var name := NameOf(slot.credential);
    var key := (slot.kind, name);
    if key in caches.byName then (caches.byName[key], caches) else
    var found := ByName(table, slot.kind, name);
    if |found| == 1 then
      (DetailsOf(found[0]), caches.(byName := caches.byName[key := DetailsOf(found[0])]))
    else
      (slot.credential, caches.(byName := caches.byName[key := Details(None, name)]))
  }

  /** A credential found by name is cached under the id that was found, not under the
      id that was asked for. */
  function RepairIdentified(table: seq<Row>, caches: Caches, slot: Slot): (Credential, Caches)
    requires !Unidentified(slot.credential)
  {
    var key := (slot.kind, slot.credential.id.value);
    if key in caches.byId then (caches.byId[key], caches) else
    match ById(table, slot.kind, slot.credential.id.value)
    case Some(row) => (DetailsOf(row), caches.(byId := caches.byId[key := DetailsOf(row)]))
    case None =>
      var found := ByName(table, slot.kind, slot.credential.name);
      if |found| == 1 then
        (DetailsOf(found[0]), caches.(byId := caches.byId[(slot.kind, found[0].id) := DetailsOf(found[0])]))
      else
        (slot.credential, caches.(byId := caches.byId[key := slot.credential]))
  }

  function Repair(table: seq<Row>, caches: Caches, slot: Slot): (Credential, Caches) {
    if Unidentified(slot.credential) then RepairNamed(table, caches, slot) else RepairIdentified(table, caches, slot)
  }

  /** All slots in order, sharing the caches. */
  function RepairSlots(table: seq<Row>, caches: Caches, slots: seq<Slot>): (r: (seq<Slot>, Caches))
    ensures |r.0| == |slots|
    decreases |slots|
  {
    if slots == [] then ([], caches) else
    var (credential, next) := Repair(table, caches, slots[0]);
    var (rest, last) := RepairSlots(table, next, slots[1..]);
    ([slots[0].(credential := credential)] + rest, last)
  }

  predicate Skipped(node: Node) { node.credentials.None? || node.disabled }

  function RepairNode(table: seq<Row>, caches: Caches, node: Node): (Node, Caches) {
    if Skipped(node) then (node, caches) else
    var (slots, next) := RepairSlots(table, caches, node.credentials.value);
    (node.(credentials := Some(slots)), next)
  }

  function RepairNodes(table: seq<Row>, caches: Caches, nodes: seq<Node>): (r: (seq<Node>, Caches))
    ensures |r.0| == |nodes|
    decreases |nodes|
  {
    if nodes == [] then ([], caches) else
    var (node, next) := RepairNode(table, caches, nodes[0]);
    var (rest, last) := RepairNodes(table, next, nodes[1..]);
    ([node] + rest, last)
  }

  /** The slots of the enabled nodes, in the order they are visited. */
  function Flatten(nodes: seq<Node>): seq<Slot> {
    if nodes == [] then [] else
    (if Skipped(nodes[0]) then [] else nodes[0].credentials.value) + Flatten(nodes[1..])
  }

  lemma {:induction false} RepairSlotsConcat(table: seq<Row>, caches: Caches, a: seq<Slot>, b: seq<Slot>)
    ensures var (first, mid) := RepairSlots(table, caches, a);
            var (second, last) := RepairSlots(table, mid, b);
            RepairSlots(table, caches, a + b) == (first + second, last)
    decreases |a|
  {
    if a == [] {
      assert a + b == b;
      assert [] + RepairSlots(table, caches, b).0 == RepairSlots(table, caches, b).0;
    } else {
      assert (a + b)[1..] == a[1..] + b;
      var (credential, next) := Repair(table, caches, a[0]);
      RepairSlotsConcat(table, next, a[1..], b);
      var (first, mid) := RepairSlots(table, next, a[1..]);
      var second := RepairSlots(table, mid, b).0;
      var head := [a[0].(credential := credential)];
      assert head + (first + second) == head + first + second;
    }
  }

  /** Visiting nodes is visiting their slots. */
  lemma {:induction false} RepairNodesFlat(table: seq<Row>, caches: Caches, nodes: seq<Node>)
    ensures var (repaired, last) := RepairNodes(table, caches, nodes);
            (Flatten(repaired), last) == RepairSlots(table, caches, Flatten(nodes))
    decreases |nodes|
  {
    if nodes != [] {
      if Skipped(nodes[0]) {
        RepairNodesFlat(table, caches, nodes[1..]);
        assert [] + Flatten(nodes[1..]) == Flatten(nodes[1..]);
        var rest := RepairNodes(table, caches, nodes[1..]).0;
        assert ([nodes[0]] + rest)[1..] == rest;
        assert [] + Flatten(rest) == Flatten(rest);
      } else {
        var own := nodes[0].credentials.value;
        var (slots, next) := RepairSlots(table, caches, own);
        RepairNodesFlat(table, next, nodes[1..]);
        RepairSlotsConcat(table, caches, own, Flatten(nodes[1..]));
        var rest := RepairNodes(table, next, nodes[1..]).0;
        var all := [nodes[0].(credentials := Some(slots))] + rest;
        assert all[1..] == rest && RepairNodes(table, caches, nodes).0 == all;
      }
    }
  }

  // ---------- What the caches hold ----------

  lemma {:induction false} ByNameSound(table: seq<Row>, kind: string, name: string)
    ensures forall row :: row in ByName(table, kind, name) ==> row in table && row.kind == kind && row.name == name
  {
    if table != [] { ByNameSound(table[1..], kind, name); }
  }

  lemma {:induction false} ByIdSound(table: seq<Row>, kind: string, id: string)
    ensures ById(table, kind, id).Some? ==> ById(table, kind, id).value in table
                                            && ById(table, kind, id).value.id == id
                                            && ById(table, kind, id).value.kind == kind
  {
    if table != [] { ByIdSound(table[1..], kind, id); }
  }

  lemma {:induction false} ByIdFinds(table: seq<Row>, row: Row)
    requires UniqueIds(table) && row in table
    ensures ById(table, row.kind, row.id) == Some(row)
  {
    if table[0] == row {
    } else {
      var k :| 0 <= k < |table| && table[k] == row;
      assert table[0].id != row.id;
      assert UniqueIds(table[1..]) && table[1..][k - 1] == row;
      ByIdFinds(table[1..], row);
    }
  }

  predicate Named(table: seq<Row>, kind: string, name: string, k: int) {
    0 <= k < |table| && table[k].kind == kind && table[k].name == name
  }

  /** Row k is of that type and has that name, and no other row does. */
  ghost predicate OnlyNamed(table: seq<Row>, kind: string, name: string, k: int) {
    Named(table, kind, name, k) && forall j :: Named(table, kind, name, j) ==> j == k
  }

  lemma NamedTail(table: seq<Row>, kind: string, name: string)
    requires table != []
    ensures Named(table, kind, name, 0) <==> table[0].kind == kind && table[0].name == name
    ensures forall j :: Named(table, kind, name, j) && j != 0 ==> Named(table[1..], kind, name, j - 1)
    ensures forall j :: Named(table[1..], kind, name, j) ==> j >= 0 && Named(table, kind, name, j + 1)
  {
  }

  lemma OnlyNamedTail(table: seq<Row>, kind: string, name: string, k: int)
    requires table != []
    ensures Named(table, kind, name, 0) ==>
              (OnlyNamed(table, kind, name, k) <==> k == 0 && forall j :: !Named(table[1..], kind, name, j))
    ensures !Named(table, kind, name, 0) ==>
              (OnlyNamed(table, kind, name, k) <==> OnlyNamed(table[1..], kind, name, k - 1))
  {
    NamedTail(table, kind, name);
    hide Named;
    if !Named(table, kind, name, 0) && OnlyNamed(table, kind, name, k) {
      forall j | Named(table[1..], kind, name, j) ensures j == k - 1 { assert Named(table, kind, name, j + 1); }
    }
  }

  /** A lookup by name finds one row if and only if there is exactly one in the table. */
  lemma {:induction false} ByNameUnique(table: seq<Row>, kind: string, name: string)
    ensures forall k :: OnlyNamed(table, kind, name, k) ==> ByName(table, kind, name) == [table[k]]
    ensures |ByName(table, kind, name)| == 1 ==> exists k :: OnlyNamed(table, kind, name, k)
    decreases |table|
  {
    if table != [] {
      var rest := table[1..];
      ByNameUnique(rest, kind, name);
      ByNameNone(rest, kind, name);
      NamedTail(table, kind, name);
      forall k | OnlyNamed(table, kind, name, k) ensures ByName(table, kind, name) == [table[k]] {
        OnlyNamedTail(table, kind, name, k);
      }
      if |ByName(table, kind, name)| == 1 {
        if Named(table, kind, name, 0) {
          OnlyNamedTail(table, kind, name, 0);
        } else {
          var k :| OnlyNamed(rest, kind, name, k);
          OnlyNamedTail(table, kind, name, k + 1);
        }
      }
    }
  }

  lemma {:induction false} ByNameNone(table: seq<Row>, kind: string, name: string)
    ensures ByName(table, kind, name) == [] <==> forall k :: !Named(table, kind, name, k)
    decreases |table|
  {
    if table != [] {
      NamedTail(table, kind, name);
      ByNameNone(table[1..], kind, name);
      hide Named;
      if k :| Named(table[1..], kind, name, k) { assert Named(table, kind, name, k + 1); }
    }
  }

  predicate HasId(table: seq<Row>, kind: string, id: string, k: int) {
    0 <= k < |table| && table[k].kind == kind && table[k].id == id
  }

  lemma {:induction false} ByIdNone(table: seq<Row>, kind: string, id: string)
    ensures ById(table, kind, id).None? <==> forall k :: !HasId(table, kind, id, k)
    decreases |table|
  {
    if table != [] {
      var rest := table[1..];
      ByIdNone(rest, kind, id);
      if table[0].kind == kind && table[0].id == id { assert HasId(table, kind, id, 0); }
      forall k | HasId(rest, kind, id, k) ensures HasId(table, kind, id, k + 1) {}
      forall k | HasId(table, kind, id, k) && k > 0 ensures HasId(rest, kind, id, k - 1) {}
    }
  }

  /** What a lookup answers, in terms of the rows of the table: the row of that type with the
      id asked for; without an id, or for one that no row has, the only row of that type with
      the name; and nothing when no row or several rows have it. */
  lemma DirectMeans(table: seq<Row>, slot: Slot)
    requires UniqueIds(table)
    ensures slot.credential.Details? && slot.credential.id.Some? ==>
              forall k :: HasId(table, slot.kind, slot.credential.id.value, k) ==>
                Direct(table, slot) == Some(Details(Some(table[k].id), table[k].name))
    ensures slot.credential.Legacy? || slot.credential.id.None?
            || (forall k :: !HasId(table, slot.kind, slot.credential.id.value, k)) ==>
              var name := if slot.credential.Legacy? then slot.credential.text else slot.credential.name;
              && (forall k :: OnlyNamed(table, slot.kind, name, k) ==>
                  Direct(table, slot) == Some(Details(Some(table[k].id), table[k].name)))
              && ((forall k :: !OnlyNamed(table, slot.kind, name, k)) ==> Direct(table, slot) == None)
  {
    hide ByName, ById, UniqueIds;
    ByNameUnique(table, slot.kind, NameOf(slot.credential));
    if !Unidentified(slot.credential) {
      ByIdNone(table, slot.kind, slot.credential.id.value);
      forall k | HasId(table, slot.kind, slot.credential.id.value, k)
        ensures ById(table, slot.kind, slot.credential.id.value) == Some(table[k])
      {
        ByIdFinds(table, table[k]);
      }
    }
  }

  predicate Missing(table: seq<Row>, kind: string, id: string) { ById(table, kind, id).None? }

  predicate Resolvable(table: seq<Row>, kind: string, name: string) { |ByName(table, kind, name)| == 1 }

  /** A by-name entry is the unique match, or the null id that marks a failed lookup;
      a by-id entry is the row with that id or an unresolved slot that was seen. */
  ghost predicate NamesOk(table: seq<Row>, byName: map<Key, Credential>) {
    forall key: Key :: key in byName ==>
      byName[key]
        == if Resolvable(table, key.0, key.1) then DetailsOf(ByName(table, key.0, key.1)[0]) else Details(None, key.1)
  }

  ghost predicate IdsOk(table: seq<Row>, byId: map<Key, Credential>) {
    forall key: Key :: key in byId ==> IdOk(table, key, byId[key])
  }

  ghost predicate IdOk(table: seq<Row>, key: Key, entry: Credential) {
    match ById(table, key.0, key.1)
    case Some(row) => entry == DetailsOf(row)
    case None => entry.Details? && entry.id == Some(key.1) && !Resolvable(table, key.0, entry.name)
  }

  ghost predicate CachesOk(table: seq<Row>, caches: Caches) {
    NamesOk(table, caches.byName) && IdsOk(table, caches.byId)
  }

  lemma RepairKeepsCaches(table: seq<Row>, caches: Caches, slot: Slot)
    requires UniqueIds(table) && CachesOk(table, caches)
    ensures CachesOk(table, Repair(table, caches, slot).1)
  {
    var found := ByName(table, slot.kind, NameOf(slot.credential));
    if !Unidentified(slot.credential) && |found| == 1 {
      ByNameSound(table, slot.kind, NameOf(slot.credential));
      assert found[0] in found;
      ByIdFinds(table, found[0]);
    }
  }

  // ---------- Refinement of the uncached lookup ----------

  /** What the repair may leave in a slot: the uncached result or, for a slot without an
      id that does not resolve, its name under a null id. */
  predicate Faithful(table: seq<Row>, slot: Slot, result: Credential) {
    || result == Uncached(table, slot)
    || (Unidentified(slot.credential) && Direct(table, slot).None? && result == Details(None, NameOf(slot.credential)))
  }

  /** Two slots that ask for the same absent id, the first of which stays unresolved,
      agree on the name. */
  predicate Agree(table: seq<Row>, a: Slot, b: Slot) {
    && !Unidentified(a.credential) && !Unidentified(b.credential)
    && a.kind == b.kind && a.credential.id == b.credential.id && Missing(table, a.kind, a.credential.id.value)
    && !Resolvable(table, a.kind, a.credential.name)
    ==> a.credential.name == b.credential.name
  }

  predicate Consistent(table: seq<Row>, slots: seq<Slot>) {
    forall j, k :: 0 <= j < k < |slots| ==> Agree(table, slots[j], slots[k])
  }

  /** The same condition against what is already cached. */
  predicate AgreesWithCache(table: seq<Row>, caches: Caches, slot: Slot) {
    !Unidentified(slot.credential) && (slot.kind, slot.credential.id.value) in caches.byId
      && Missing(table, slot.kind, slot.credential.id.value)
    ==> caches.byId[(slot.kind, slot.credential.id.value)] == slot.credential
  }

  predicate AllAgree(table: seq<Row>, caches: Caches, slots: seq<Slot>) {
    forall k :: 0 <= k < |slots| ==> AgreesWithCache(table, caches, slots[k])
  }

  /** One slot is faithful exactly when it agrees with the cache. */
  lemma RepairFaithful(table: seq<Row>, caches: Caches, slot: Slot)
    requires UniqueIds(table) && CachesOk(table, caches)
    ensures Faithful(table, slot, Repair(table, caches, slot).0) <==> AgreesWithCache(table, caches, slot)
  {
    if !Unidentified(slot.credential) && (slot.kind, slot.credential.id.value) in caches.byId {
      var key := (slot.kind, slot.credential.id.value);
      assert IdOk(table, key, caches.byId[key]);
      ByNameSound(table, slot.kind, slot.credential.name);
      if Missing(table, slot.kind, slot.credential.id.value) && Resolvable(table, slot.kind, slot.credential.name) {
        var row := ByName(table, slot.kind, slot.credential.name)[0];
        assert row in ByName(table, slot.kind, slot.credential.name);
        ByIdFinds(table, row);
        assert row.id != slot.credential.id.value;
      }
    }
  }

  /** After a slot is processed, the cache agrees with a later slot exactly when it did
      before and the two slots agree. */
  lemma AgreementSplits(table: seq<Row>, caches: Caches, a: Slot, b: Slot)
    requires UniqueIds(table) && CachesOk(table, caches) && AgreesWithCache(table, caches, a)
    ensures AgreesWithCache(table, Repair(table, caches, a).1, b)
       <==> AgreesWithCache(table, caches, b) && Agree(table, a, b)
  {
    if !Unidentified(a.credential) {
      var key := (a.kind, a.credential.id.value);
      if key in caches.byId { assert IdOk(table, key, caches.byId[key]); }
      var found := ByName(table, a.kind, a.credential.name);
      if |found| == 1 {
        ByNameSound(table, a.kind, a.credential.name);
        assert found[0] in found;
        ByIdFinds(table, found[0]);
      }
    }
  }

  ghost predicate AllFaithful(table: seq<Row>, slots: seq<Slot>, results: seq<Slot>)
    requires |results| == |slots|
  {
    forall k :: 0 <= k < |slots| ==>
      results[k].kind == slots[k].kind && Faithful(table, slots[k], results[k].credential)
  }

  /** The cached run refines the uncached lookup on every slot if and only if no two
      slots disagree about an absent, unresolved id. */
  lemma {:induction false} CacheRefinement(table: seq<Row>, caches: Caches, slots: seq<Slot>)
    requires UniqueIds(table) && CachesOk(table, caches)
    ensures AllFaithful(table, slots, RepairSlots(table, caches, slots).0)
       <==> Consistent(table, slots) && AllAgree(table, caches, slots)
    decreases |slots|
  {
    if slots != [] {
      var (credential, next) := Repair(table, caches, slots[0]);
      var rest := RepairSlots(table, next, slots[1..]).0;
      var results := RepairSlots(table, caches, slots).0;
      assert results == [slots[0].(credential := credential)] + rest;
      RepairFaithful(table, caches, slots[0]);
      RepairKeepsCaches(table, caches, slots[0]);
      CacheRefinement(table, next, slots[1..]);
      assert results[0].credential == credential && results[1..] == rest;
      FaithfulSplits(table, slots, results);
      if AgreesWithCache(table, caches, slots[0]) {
        forall k | 0 <= k < |slots[1..]|
          ensures AgreesWithCache(table, next, slots[1..][k])
             <==> AgreesWithCache(table, caches, slots[k + 1]) && Agree(table, slots[0], slots[k + 1])
        {
          AgreementSplits(table, caches, slots[0], slots[1..][k]);
        }
        ConditionSplits(table, caches, next, slots);
      } else {
        assert !AllAgree(table, caches, slots);
      }
    }
  }

  lemma FaithfulSplits(table: seq<Row>, slots: seq<Slot>, results: seq<Slot>)
    requires slots != [] && |results| == |slots|
    ensures AllFaithful(table, slots, results)
       <==> results[0].kind == slots[0].kind && Faithful(table, slots[0], results[0].credential)
            && AllFaithful(table, slots[1..], results[1..])
  {
    hide Faithful;
    if AllFaithful(table, slots[1..], results[1..]) {
      forall k | 1 <= k < |slots|
        ensures results[k].kind == slots[k].kind && Faithful(table, slots[k], results[k].credential)
      {
        assert slots[1..][k - 1] == slots[k] && results[1..][k - 1] == results[k];
      }
    }
  }

  lemma ConditionSplits(table: seq<Row>, caches: Caches, next: Caches, slots: seq<Slot>)
    requires slots != [] && AgreesWithCache(table, caches, slots[0])
    requires forall k :: 0 <= k < |slots[1..]| ==>
               (AgreesWithCache(table, next, slots[1..][k])
                <==> AgreesWithCache(table, caches, slots[k + 1]) && Agree(table, slots[0], slots[k + 1]))
    ensures Consistent(table, slots) && AllAgree(table, caches, slots)
       <==> Consistent(table, slots[1..]) && AllAgree(table, next, slots[1..])
  {
    hide AgreesWithCache, Agree;
    if Consistent(table, slots) && AllAgree(table, caches, slots) {
      forall j, k | 0 <= j < k < |slots[1..]|
        ensures Agree(table, slots[1..][j], slots[1..][k])
      {
        assert Agree(table, slots[j + 1], slots[k + 1]);
      }
    }
    if Consistent(table, slots[1..]) && AllAgree(table, next, slots[1..]) {
      forall j, k | 0 <= j < k < |slots| ensures Agree(table, slots[j], slots[k]) {
        assert AgreesWithCache(table, next, slots[1..][k - 1]);
        if j > 0 { assert Agree(table, slots[1..][j - 1], slots[1..][k - 1]); }
      }
      forall k | 0 <= k < |slots| ensures AgreesWithCache(table, caches, slots[k]) {
        if k > 0 { assert AgreesWithCache(table, next, slots[1..][k - 1]); }
      }
    }
  }

  /** An earlier slot asks, without an id, for the same name of the same type. */
  predicate AskedBefore(slots: seq<Slot>, k: nat)
    requires k < |slots|
  {
    exists j :: 0 <= j < k && SameName(slots[j], slots[k])
  }

  predicate SameName(a: Slot, b: Slot) {
    Unidentified(a.credential) && a.kind == b.kind && NameOf(a.credential) == NameOf(b.credential)
  }

  /** Which of the two a slot without an id gets when its name does not resolve: the first
      such slot stays as it is, the later ones get the name under a null id. */
  lemma {:induction false} UnresolvedNames(table: seq<Row>, caches: Caches, slots: seq<Slot>, k: nat)
    requires UniqueIds(table) && CachesOk(table, caches) && k < |slots| && Unidentified(slots[k].credential)
    requires !Resolvable(table, slots[k].kind, NameOf(slots[k].credential))
    ensures RepairSlots(table, caches, slots).0[k].credential
         == if (slots[k].kind, NameOf(slots[k].credential)) in caches.byName || AskedBefore(slots, k)
            then Details(None, NameOf(slots[k].credential)) else slots[k].credential
    decreases |slots|
  {
    var key := (slots[k].kind, NameOf(slots[k].credential));
    if k > 0 {
      var next := Repair(table, caches, slots[0]).1;
      RepairKeepsCaches(table, caches, slots[0]);
      NamesSeen(table, caches, slots[0], key);
      UnresolvedNames(table, next, slots[1..], k - 1);
      hide Repair, CachesOk, UniqueIds, SameName, Resolvable, RepairSlots;
      RepairRest(table, caches, slots, k);
      assert AskedBefore(slots, k) <==> SameName(slots[0], slots[k]) || AskedBefore(slots[1..], k - 1) by {
        if j :| 0 <= j < k && SameName(slots[j], slots[k]) && j > 0 { assert slots[1..][j - 1] == slots[j]; }
        if j :| 0 <= j < k - 1 && SameName(slots[1..][j], slots[1..][k - 1]) { assert slots[j + 1] == slots[1..][j]; }
      }
      SameNameMeans(slots[0], slots[k]);
    }
  }

  lemma SameNameMeans(a: Slot, b: Slot)
    ensures SameName(a, b)
       <==> Unidentified(a.credential) && (a.kind, NameOf(a.credential)) == (b.kind, NameOf(b.credential))
  {
  }

  lemma RepairRest(table: seq<Row>, caches: Caches, slots: seq<Slot>, k: nat)
    requires 0 < k < |slots|
    ensures RepairSlots(table, caches, slots).0[k]
         == RepairSlots(table, Repair(table, caches, slots[0]).1, slots[1..]).0[k - 1]
  {
    hide Repair;
  }

  /** What is answered for an id is cached under the id it has, which is not always the one
      that was asked for. */
  lemma AnswerIsCached(table: seq<Row>, caches: Caches, slot: Slot)
    requires UniqueIds(table) && CachesOk(table, caches) && !Unidentified(slot.credential)
    ensures var (credential, next) := Repair(table, caches, slot);
            && credential.Details? && credential.id.Some?
            && Lookup(next.byId, (slot.kind, credential.id.value)) == Some(credential)
  {
    var key := (slot.kind, slot.credential.id.value);
    ByIdSound(table, slot.kind, slot.credential.id.value);
    if key in caches.byId { assert IdOk(table, key, caches.byId[key]); }
  }

  /** A name is cached once it has been asked for. */
  lemma NamesSeen(table: seq<Row>, caches: Caches, slot: Slot, key: Key)
    ensures key in Repair(table, caches, slot).1.byName <==>
            key in caches.byName || (Unidentified(slot.credential) && (slot.kind, NameOf(slot.credential)) == key)
  {
  }

  /** Only enabled nodes are touched, and of those only the credentials: a disabled node, or
      one without credentials, stays as it is. */
  lemma {:induction false} SkippedNodesStay(table: seq<Row>, caches: Caches, nodes: seq<Node>, k: nat)
    requires k < |nodes|
    ensures var repaired := RepairNodes(table, caches, nodes).0[k];
            && (nodes[k].disabled || nodes[k].credentials.None? ==> repaired == nodes[k])
            && (!nodes[k].disabled && nodes[k].credentials.Some? ==>
                repaired == Node(false, repaired.credentials) && repaired.credentials.Some?
                && |repaired.credentials.value| == |nodes[k].credentials.value|)
    decreases |nodes|
  {
    if k > 0 { SkippedNodesStay(table, RepairNode(table, caches, nodes[0]).1, nodes[1..], k - 1); }
  }

  /** The refinement for a whole workflow, starting from empty caches. */
  lemma WorkflowRefinement(table: seq<Row>, nodes: seq<Node>)
    requires UniqueIds(table)
    ensures var repaired := RepairNodes(table, FRESH, nodes).0;
            |Flatten(repaired)| == |Flatten(nodes)| &&
            (AllFaithful(table, Flatten(nodes), Flatten(repaired)) <==> Consistent(table, Flatten(nodes)))
  {
    RepairNodesFlat(table, FRESH, nodes);
    CacheRefinement(table, FRESH, Flatten(nodes));
  }

  /** Two credentials of one type that share an id nobody has, under names that find
      nothing: the second one takes the name of the first, which a lookup would not do. */
  lemma NameTakenOver(table: seq<Row>, kind: string, id: string, a: string, b: string)
    requires a != b && ById(table, kind, id).None?
    requires |ByName(table, kind, a)| != 1 && |ByName(table, kind, b)| != 1
    ensures var slots := [Slot(kind, Details(Some(id), a)), Slot(kind, Details(Some(id), b))];
            && RepairNodes(table, FRESH, [Node(false, Some(slots))]).0 == [Node(false, Some([slots[0], slots[0]]))]
            && Uncached(table, slots[1]) == slots[1].credential
  {
    var slots := [Slot(kind, Details(Some(id), a)), Slot(kind, Details(Some(id), b))];
    var nodes, cached := [Node(false, Some(slots))], Caches(map[], map[(kind, id) := slots[0].credential]);
    assert Repair(table, FRESH, slots[0]) == (slots[0].credential, cached);
    assert Repair(table, cached, slots[1]) == (slots[0].credential, cached);
    hide Repair, ById, ByName, Direct;
    assert slots[1..] == [slots[1]] && slots[1..][1..] == [] && nodes[1..] == [];
    assert RepairSlots(table, cached, slots[1..]).0 == [slots[0]];
    assert RepairSlots(table, FRESH, slots).0 == [slots[0], slots[0]];
    assert RepairNode(table, FRESH, nodes[0]).0 == Node(false, Some([slots[0], slots[0]]));
  }

  // ---------- Idempotence ----------

  /** How the caches of a second run relate to those of the first, slot by slot: only
      failed lookups are looked up by name again, and what is cached under an absent id
      is the same in both. */
  ghost predicate NamesMirror(table: seq<Row>, first: map<Key, Credential>, second: map<Key, Credential>) {
    && (forall key: Key :: key in second ==> !Resolvable(table, key.0, key.1))
    && (forall key: Key :: !Resolvable(table, key.0, key.1) ==> (key in first <==> key in second))
  }

  ghost predicate IdsMirror(table: seq<Row>, first: map<Key, Credential>, second: map<Key, Credential>) {
    forall key: Key :: Missing(table, key.0, key.1) ==> Lookup(first, key) == Lookup(second, key)
  }

  ghost predicate Mirrors(table: seq<Row>, first: Caches, second: Caches) {
    && CachesOk(table, first) && CachesOk(table, second)
    && NamesMirror(table, first.byName, second.byName) && IdsMirror(table, first.byId, second.byId)
  }

  /** The second run meets what the first one left in the slot. */
  ghost predicate StepMirrors(table: seq<Row>, first: Caches, second: Caches, slot: Slot) {
    var (credential, next) := Repair(table, first, slot);
    var (again, after) := Repair(table, second, slot.(credential := credential));
    again == credential && Mirrors(table, next, after)
  }

  /** A slot holding the details of a row stays as it is. */
  lemma RowIsStable(table: seq<Row>, caches: Caches, kind: string, row: Row)
    requires UniqueIds(table) && CachesOk(table, caches) && row in table && row.kind == kind
    ensures var (credential, next) := Repair(table, caches, Slot(kind, DetailsOf(row)));
            && credential == DetailsOf(row) && next.byName == caches.byName
            && (next.byId == caches.byId || next.byId == caches.byId[(kind, row.id) := DetailsOf(row)])
            && !Missing(table, kind, row.id)
  {
    ByIdFinds(table, row);
    var key := (kind, row.id);
    if key in caches.byId { assert IdOk(table, key, caches.byId[key]); }
  }

  /** What one step does to the caches when it resolves a slot to a row. */
  predicate Resolves(table: seq<Row>, caches: Caches, slot: Slot, row: Row) {
    var (credential, next) := Repair(table, caches, slot);
    && credential == DetailsOf(row) && row in table && row.kind == slot.kind && !Missing(table, slot.kind, row.id)
    && (next.byName == caches.byName
        || (Resolvable(table, slot.kind, NameOf(slot.credential))
            && next.byName == caches.byName[(slot.kind, NameOf(slot.credential)) := DetailsOf(row)]))
    && (next.byId == caches.byId || next.byId == caches.byId[(slot.kind, row.id) := DetailsOf(row)])
  }

  lemma ResolvedMirrors(table: seq<Row>, first: Caches, second: Caches, slot: Slot, row: Row)
    requires UniqueIds(table) && Mirrors(table, first, second) && Resolves(table, first, slot, row)
    ensures StepMirrors(table, first, second, slot)
  {
    var (credential, next) := Repair(table, first, slot);
    RepairKeepsCaches(table, first, slot);
    RepairKeepsCaches(table, second, slot.(credential := credential));
    RowIsStable(table, second, slot.kind, row);
    var after := Repair(table, second, slot.(credential := credential)).1;
    hide Repair, CachesOk, Resolvable, Missing, UniqueIds;
    assert NamesMirror(table, next.byName, after.byName);
    assert IdsMirror(table, next.byId, after.byId);
  }

  lemma NamedMirrors(table: seq<Row>, first: Caches, second: Caches, slot: Slot)
    requires UniqueIds(table) && Mirrors(table, first, second) && Unidentified(slot.credential)
    ensures StepMirrors(table, first, second, slot)
  {
    var found := ByName(table, slot.kind, NameOf(slot.credential));
    if |found| == 1 {
      ByNameSound(table, slot.kind, NameOf(slot.credential));
      assert found[0] in found;
      ByIdFinds(table, found[0]);
      assert Resolves(table, first, slot, found[0]) by { hide UniqueIds, Mirrors; }
      hide *;
      ResolvedMirrors(table, first, second, slot, found[0]);
    } else {
      UnresolvedNameMirrors(table, first, second, slot);
    }
  }

  lemma UnresolvedNameMirrors(table: seq<Row>, first: Caches, second: Caches, slot: Slot)
    requires UniqueIds(table) && Mirrors(table, first, second) && Unidentified(slot.credential)
    requires !Resolvable(table, slot.kind, NameOf(slot.credential))
    ensures StepMirrors(table, first, second, slot)
  {
    if (slot.kind, NameOf(slot.credential)) in first.byName {
      SeenNameMirrors(table, first, second, slot);
    } else {
      FreshNameMirrors(table, first, second, slot);
    }
  }

  /** A failed name that is cached is found in both caches. */
  lemma SeenNameMirrors(table: seq<Row>, first: Caches, second: Caches, slot: Slot)
    requires Mirrors(table, first, second) && Unidentified(slot.credential)
    requires !Resolvable(table, slot.kind, NameOf(slot.credential))
    requires (slot.kind, NameOf(slot.credential)) in first.byName
    ensures StepMirrors(table, first, second, slot)
  {
    hide IdsOk, IdsMirror;
    var key := (slot.kind, NameOf(slot.credential));
    assert key in second.byName && first.byName[key] == Details(None, key.1) == second.byName[key];
    hide Mirrors;
  }

  /** One that is not is marked in both. */
  lemma FreshNameMirrors(table: seq<Row>, first: Caches, second: Caches, slot: Slot)
    requires UniqueIds(table) && Mirrors(table, first, second) && Unidentified(slot.credential)
    requires !Resolvable(table, slot.kind, NameOf(slot.credential))
    requires (slot.kind, NameOf(slot.credential)) !in first.byName
    ensures StepMirrors(table, first, second, slot)
  {
    RepairKeepsCaches(table, first, slot);
    RepairKeepsCaches(table, second, slot);
    var key := (slot.kind, NameOf(slot.credential));
    assert key !in second.byName && !Resolvable(table, key.0, key.1);
    MarkMirrors(table, first.byName, second.byName, key, Details(None, key.1));
    hide CachesOk, IdsMirror, UniqueIds, NamesMirror, Resolvable;
    assert slot.(credential := slot.credential) == slot;
    var next, after := Repair(table, first, slot).1, Repair(table, second, slot).1;
    assert next == first.(byName := first.byName[key := Details(None, key.1)]);
    assert after == second.(byName := second.byName[key := Details(None, key.1)]);
  }

  lemma MarkMirrors(table: seq<Row>, first: map<Key, Credential>, second: map<Key, Credential>, key: Key,
      mark: Credential)
    requires NamesMirror(table, first, second) && !Resolvable(table, key.0, key.1)
    ensures NamesMirror(table, first[key := mark], second[key := mark])
  {
    hide Resolvable;
  }

  lemma IdentifiedMirrors(table: seq<Row>, first: Caches, second: Caches, slot: Slot)
    requires UniqueIds(table) && Mirrors(table, first, second) && !Unidentified(slot.credential)
    ensures StepMirrors(table, first, second, slot)
  {
    var key := (slot.kind, slot.credential.id.value);
    var row := ById(table, key.0, key.1);
    var found := ByName(table, slot.kind, slot.credential.name);
    if row.Some? {
      ByIdSound(table, key.0, key.1);
      if key in first.byId { assert IdOk(table, key, first.byId[key]); }
      assert Resolves(table, first, slot, row.value) by { hide UniqueIds, Mirrors; }
      hide *;
      ResolvedMirrors(table, first, second, slot, row.value);
    } else if key !in first.byId && |found| == 1 {
      ByNameSound(table, slot.kind, slot.credential.name);
      assert found[0] in found;
      ByIdFinds(table, found[0]);
      assert Resolves(table, first, slot, found[0]) by { hide UniqueIds, Mirrors; }
      hide *;
      ResolvedMirrors(table, first, second, slot, found[0]);
    } else {
      UnresolvedIdMirrors(table, first, second, slot);
    }
  }

  lemma UnresolvedIdMirrors(table: seq<Row>, first: Caches, second: Caches, slot: Slot)
    requires UniqueIds(table) && Mirrors(table, first, second) && !Unidentified(slot.credential)
    requires Missing(table, slot.kind, slot.credential.id.value)
    requires (slot.kind, slot.credential.id.value) in first.byId || !Resolvable(table, slot.kind, slot.credential.name)
    ensures StepMirrors(table, first, second, slot)
  {
    var key := (slot.kind, slot.credential.id.value);
    if key in first.byId { assert IdOk(table, key, first.byId[key]); }
    assert Lookup(first.byId, key) == Lookup(second.byId, key);
    var (credential, next) := Repair(table, first, slot);
    RepairKeepsCaches(table, first, slot);
    RepairKeepsCaches(table, second, slot.(credential := credential));
    var (again, after) := Repair(table, second, slot.(credential := credential));
    assert next.byName == first.byName && after.byName == second.byName;
    hide UniqueIds, CachesOk, NamesMirror, IdOk;
    assert again == credential && IdsMirror(table, next.byId, after.byId);
  }

  lemma {:induction false} SlotsIdempotent(table: seq<Row>, first: Caches, second: Caches, slots: seq<Slot>)
    requires UniqueIds(table) && Mirrors(table, first, second)
    ensures var repaired := RepairSlots(table, first, slots).0;
            RepairSlots(table, second, repaired).0 == repaired
    decreases |slots|
  {
    hide Mirrors, Repair, UniqueIds;
    if slots != [] {
      var (credential, next) := Repair(table, first, slots[0]);
      if Unidentified(slots[0].credential) {
        NamedMirrors(table, first, second, slots[0]);
      } else {
        IdentifiedMirrors(table, first, second, slots[0]);
      }
      var after := Repair(table, second, slots[0].(credential := credential)).1;
      SlotsIdempotent(table, next, after, slots[1..]);
      var rest := RepairSlots(table, next, slots[1..]).0;
      assert RepairSlots(table, first, slots).0[1..] == rest;
    }
  }

  /** The nodes differ at most in the slots of an enabled node, and not in how many there are. */
  predicate SameShape(a: Node, b: Node) {
    && a.disabled == b.disabled && (Skipped(a) <==> Skipped(b))
    && (if Skipped(a) then a == b else |a.credentials.value| == |b.credentials.value|)
  }

  lemma {:induction false} SameSlotsSameNodes(a: seq<Node>, b: seq<Node>)
    requires |a| == |b| && Flatten(a) == Flatten(b)
    requires forall k :: 0 <= k < |a| ==> SameShape(a[k], b[k])
    ensures a == b
    decreases |a|
  {
    if a != [] {
      assert SameShape(a[0], b[0]);
      var x := if Skipped(a[0]) then [] else a[0].credentials.value;
      var y := if Skipped(b[0]) then [] else b[0].credentials.value;
      assert Flatten(a)[..|x|] == x && Flatten(b)[..|y|] == y;
      assert Flatten(a)[|x|..] == Flatten(a[1..]) && Flatten(b)[|y|..] == Flatten(b[1..]);
      SameSlotsSameNodes(a[1..], b[1..]);
      assert a == [a[0]] + a[1..] && b == [b[0]] + b[1..];
    }
  }

  lemma {:induction false} RepairKeepsShape(table: seq<Row>, caches: Caches, nodes: seq<Node>, k: nat)
    requires k < |nodes|
    ensures SameShape(RepairNodes(table, caches, nodes).0[k], nodes[k])
    decreases |nodes|
  {
    if k > 0 {
      var next := if Skipped(nodes[0]) then caches else RepairSlots(table, caches, nodes[0].credentials.value).1;
      RepairKeepsShape(table, next, nodes[1..], k - 1);
    }
  }

  /** A second run with fresh caches over the same table changes nothing, for every list
      of nodes: repeated, unresolved and disabled ones included. */
  lemma Idempotent(table: seq<Row>, nodes: seq<Node>)
    requires UniqueIds(table)
    ensures var repaired := RepairNodes(table, FRESH, nodes).0;
            RepairNodes(table, FRESH, repaired).0 == repaired
  {
    var repaired := RepairNodes(table, FRESH, nodes).0;
    var again := RepairNodes(table, FRESH, repaired).0;
    RepairNodesFlat(table, FRESH, nodes);
    RepairNodesFlat(table, FRESH, repaired);
    SlotsIdempotent(table, FRESH, FRESH, Flatten(nodes));
    forall k | 0 <= k < |repaired| ensures SameShape(again[k], repaired[k]) {
      RepairKeepsShape(table, FRESH, repaired, k);
    }
    SameSlotsSameNodes(again, repaired);
  }

  // ---------- The function, rewriting nodes in place ----------

  class CredentialsRepository {
    var table: seq<Row>

    method FindBy(kind: string, name: string) returns (rows: seq<Row>)
      ensures rows == ByName(table, kind, name)
    {
      rows := ByName(table, kind, name);
    }

    method FindOneBy(kind: string, id: string) returns (row: Option<Row>)
      ensures row == ById(table, kind, id)
    {
      row := ById(table, kind, id);
    }
  }

  method ReplaceInvalidCredentials(repository: CredentialsRepository, nodes: array<Node>)
    modifies nodes
    ensures nodes[..] == RepairNodes(repository.table, FRESH, old(nodes[..])).0
  {
    ghost var table, before := repository.table, nodes[..];
    ghost var goal := RepairNodes(table, FRESH, before).0;
    var credentialsByName: map<Key, Credential>, credentialsById: map<Key, Credential> := map[], map[];
    assert nodes[..0] + goal == goal && before[0..] == before;
    hide RepairNode, RepairNodes;
    for i := 0 to nodes.Length
      invariant forall k :: i <= k < nodes.Length ==> nodes[k] == before[k]
      invariant goal == nodes[..i] + RepairNodes(table, Caches(credentialsByName, credentialsById), before[i..]).0
    {
      ghost var done, caches := nodes[..i], Caches(credentialsByName, credentialsById);
      credentialsByName, credentialsById := ReplaceAt(repository, nodes, i, credentialsByName, credentialsById);
      assert nodes[..i] == done;
      assert nodes[..i + 1] == done + [nodes[i]];
      NodesStep(table, caches, before, i, done);
    }
    assert before[nodes.Length..] == [] && nodes[..nodes.Length] + [] == nodes[..];
    NoNodes(table, Caches(credentialsByName, credentialsById));
  }

  /** The body of that loop. */
  method ReplaceAt(repository: CredentialsRepository, nodes: array<Node>, i: nat, byName: map<Key, Credential>,
      byId: map<Key, Credential>)
    returns (credentialsByName: map<Key, Credential>, credentialsById: map<Key, Credential>)
    requires i < nodes.Length
    modifies nodes
    ensures (nodes[i], Caches(credentialsByName, credentialsById))
         == RepairNode(repository.table, Caches(byName, byId), old(nodes[i]))
    ensures forall k :: 0 <= k < nodes.Length && k != i ==> nodes[k] == old(nodes[k])
  {
    credentialsByName, credentialsById := byName, byId;
    if nodes[i].credentials.None? || nodes[i].disabled { return; }
    var credentials := nodes[i].credentials.value;
    credentials, credentialsByName, credentialsById := ReplaceInNode(repository, credentials, byName, byId);
    nodes[i] := nodes[i].(credentials := Some(credentials));
  }

  lemma NodesStep(table: seq<Row>, caches: Caches, nodes: seq<Node>, i: nat, done: seq<Node>)
    requires i < |nodes|
    ensures var (node, next) := RepairNode(table, caches, nodes[i]);
            done + RepairNodes(table, caches, nodes[i..]).0
            == done + [node] + RepairNodes(table, next, nodes[i + 1..]).0
  {
    assert nodes[i..][0] == nodes[i] && nodes[i..][1..] == nodes[i + 1..];
    var (node, next) := RepairNode(table, caches, nodes[i]);
    hide RepairNode;
    Associative(done, [node], RepairNodes(table, next, nodes[i + 1..]).0);
  }

  lemma NoNodes(table: seq<Row>, caches: Caches)
    ensures RepairNodes(table, caches, []) == ([], caches)
  {
  }

  lemma SlotsStep(table: seq<Row>, caches: Caches, slots: seq<Slot>, i: nat)
    requires i < |slots|
    ensures var (credential, next) := Repair(table, caches, slots[i]);
            var (rest, last) := RepairSlots(table, next, slots[i + 1..]);
            RepairSlots(table, caches, slots[i..]) == ([slots[i].(credential := credential)] + rest, last)
  {
    assert slots[i..][0] == slots[i] && slots[i..][1..] == slots[i + 1..];
  }

  /** The loop over the entries of one node. */
  method ReplaceInNode(repository: CredentialsRepository, slots: seq<Slot>, byName: map<Key, Credential>,
      byId: map<Key, Credential>)
    returns (r: seq<Slot>, credentialsByName: map<Key, Credential>, credentialsById: map<Key, Credential>)
    ensures (r, Caches(credentialsByName, credentialsById))
         == RepairSlots(repository.table, Caches(byName, byId), slots)
  {
    ghost var table := repository.table;
    ghost var goal := RepairSlots(table, Caches(byName, byId), slots);
    r, credentialsByName, credentialsById := [], byName, byId;
    assert slots[0..] == slots && [] + goal.0 == goal.0;
    for i := 0 to |slots|
      invariant |r| == i
      invariant var rest := RepairSlots(table, Caches(credentialsByName, credentialsById), slots[i..]);
                goal == (r + rest.0, rest.1)
    {
      SlotsStep(table, Caches(credentialsByName, credentialsById), slots, i);
      var credential;
      credential, credentialsByName, credentialsById
        := ReplaceOne(repository, slots[i], credentialsByName, credentialsById);
      ghost var rest := RepairSlots(table, Caches(credentialsByName, credentialsById), slots[i + 1..]).0;
      assert r + ([slots[i].(credential := credential)] + rest) == r + [slots[i].(credential := credential)] + rest;
      r := r + [slots[i].(credential := credential)];
    }
    assert slots[|slots|..] == [] && r + [] == r;
  }

  /** The body of that loop: the two cache lookups and the repository calls behind them. */
  method ReplaceOne(repository: CredentialsRepository, slot: Slot, byName: map<Key, Credential>,
      byId: map<Key, Credential>)
    returns (r: Credential, credentialsByName: map<Key, Credential>, credentialsById: map<Key, Credential>)
    ensures (r, Caches(credentialsByName, credentialsById)) == Repair(repository.table, Caches(byName, byId), slot)
  {
    r, credentialsByName, credentialsById := slot.credential, byName, byId;
    var kind := slot.kind;
    if r.Legacy? || r.id.None? {
      var name := if r.Legacy? then r.text else r.name;
      if (kind, name) !in credentialsByName {
        var credentials := repository.FindBy(kind, name);
        if |credentials| == 1 {
          credentialsByName := credentialsByName[(kind, name) := DetailsOf(credentials[0])];
          r := credentialsByName[(kind, name)];
          return;
        }
        credentialsByName := credentialsByName[(kind, name) := Details(None, name)];
      } else {
        r := credentialsByName[(kind, name)];
      }
      return;
    }
    if (kind, r.id.value) !in credentialsById {
      var credentials := repository.FindOneBy(kind, r.id.value);
      if credentials.Some? {
        credentialsById := credentialsById[(kind, r.id.value) := DetailsOf(credentials.value)];
        r := DetailsOf(credentials.value);
        return;
      }
      var credsByName := repository.FindBy(kind, r.name);
      if |credsByName| == 1 {
        credentialsById := credentialsById[(kind, credsByName[0].id) := DetailsOf(credsByName[0])];
        r := DetailsOf(credsByName[0]);
        return;
      }
      credentialsById := credentialsById[(kind, r.id.value) := r];
      return;
    }
    r := credentialsById[(kind, r.id.value)];
  }
}
