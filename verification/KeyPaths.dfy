/** Printing the key paths of the matching strings in a JSON tree
    (packages/cli/src/utils.ts). */
module KeyPaths {
  import opened Options
  import opened Sequences

  /** `fields` is in the order of Object.entries; `Other` is any value that is neither a
      string nor a container. */
  datatype Json = Str(text: string) | Arr(items: seq<Json>) | Obj(fields: seq<(string, Json)>) | Other

  datatype Segment = Key(name: string) | Index(at: nat)

  type Filter = string -> bool

  // ---------- Children ----------

  function Count(obj: Json): nat {
    match obj
    case Arr(items) => |items|
    case Obj(fields) => |fields|
    case _ => 0
  }

  function Child(obj: Json, i: nat): (child: Json)
    requires i < Count(obj)
    ensures child < obj
  {
    if obj.Arr? then obj.items[i] else assert obj.fields[i] < obj; obj.fields[i].1
  }

  function SegmentAt(obj: Json, i: nat): Segment
    requires i < Count(obj)
  {
    if obj.Arr? then Index(i) else Key(obj.fields[i].0)
  }

  /** A matching string directly under an object key. */
  predicate Hit(obj: Json, i: nat, f: Filter)
    requires i < Count(obj)
  {
    obj.Obj? && Child(obj, i).Str? && f(Child(obj, i).text)
  }

  // ---------- The printer ----------

  function Decimal(n: nat): string {
    if n < 10 then [Digit(n)] else Decimal(n / 10) + [Digit(n % 10)]
  }

  function Digit(d: nat): char
    requires d < 10
  {
    '0' + d as char
  }

  function Extend(currentPath: string, segment: Segment): string {
    match segment
    case Index(at) => currentPath + "[" + Decimal(at) + "]"
    case Key(name) => if currentPath != "" then currentPath + "." + name else name
  }

  /** What the recursion pushes for the children from i on. */
  function PathsFrom(obj: Json, i: nat, currentPath: string, f: Filter): seq<string>
    decreases obj, Count(obj) - i
  {
    if i >= Count(obj) then [] else
    var newPath := Extend(currentPath, SegmentAt(obj, i));
    (if Hit(obj, i, f) then [newPath] else PathsFrom(Child(obj, i), 0, newPath, f))
    + PathsFrom(obj, i + 1, currentPath, f)
  }

  function Paths(obj: Json, f: Filter): seq<string> { PathsFrom(obj, 0, "", f) }

  // ---------- What it should print ----------

  /** Keys are distinct in every object, as in any JavaScript object. */
  predicate WellFormed(obj: Json)
    decreases obj
  {
    && (forall i, j :: 0 <= i < j < Count(obj) ==> SegmentAt(obj, i) != SegmentAt(obj, j))
    && (forall i :: 0 <= i < Count(obj) ==> WellFormed(Child(obj, i)))
  }

  function Find(obj: Json, segment: Segment, i: nat): Option<Json>
    decreases Count(obj) - i
  {
    if i >= Count(obj) then None
    else if SegmentAt(obj, i) == segment then Some(Child(obj, i))
    else Find(obj, segment, i + 1)
  }

  /** The value a path leads to. */
  function At(obj: Json, path: seq<Segment>): Option<Json>
    decreases |path|
  {
    if path == [] then Some(obj) else
    match Find(obj, path[0], 0)
    case None => None
    case Some(child) => At(child, path[1..])
  }

  /** The path leads to a matching string through a last step by key. */
  predicate Matches(obj: Json, path: seq<Segment>, f: Filter) {
    && path != [] && path[|path| - 1].Key?
    && At(obj, path).Some? && At(obj, path).value.Str? && f(At(obj, path).value.text)
  }

  /** The same for paths whose first step is child i or a later one. */
  ghost predicate MatchesFrom(obj: Json, i: nat, path: seq<Segment>, f: Filter) {
    Matches(obj, path, f) && exists j: nat :: i <= j < Count(obj) && SegmentAt(obj, j) == path[0]
  }

  // ---------- Paths as segments ----------

  function LeavesFrom(obj: Json, i: nat, prefix: seq<Segment>, f: Filter): seq<seq<Segment>>
    decreases obj, Count(obj) - i
  {
    if i >= Count(obj) then [] else
    var path := prefix + [SegmentAt(obj, i)];
    (if Hit(obj, i, f) then [path] else LeavesFrom(Child(obj, i), 0, path, f))
    + LeavesFrom(obj, i + 1, prefix, f)
  }

  function Leaves(obj: Json, f: Filter): seq<seq<Segment>> { LeavesFrom(obj, 0, [], f) }

  /** The printed form of a path, step by step as the recursion builds it. */
  function Render(path: seq<Segment>): string {
    if path == [] then "" else Extend(Render(path[..|path| - 1]), path[|path| - 1])
  }

  function RenderAll(paths: seq<seq<Segment>>): (r: seq<string>)
    ensures |r| == |paths|
    ensures forall k :: 0 <= k < |paths| ==> r[k] == Render(paths[k])
  {
    if paths == [] then [] else [Render(paths[0])] + RenderAll(paths[1..])
  }

  lemma {:induction false} RenderAllConcat(a: seq<seq<Segment>>, b: seq<seq<Segment>>)
    ensures RenderAll(a + b) == RenderAll(a) + RenderAll(b)
  {
  }

  lemma RenderExtend(path: seq<Segment>, segment: Segment)
    ensures Render(path + [segment]) == Extend(Render(path), segment)
  {
    assert (path + [segment])[..|path|] == path;
  }

  /** The printer prints the segment paths, whatever the keys are. */
  lemma {:induction false} PrintsLeaves(obj: Json, i: nat, prefix: seq<Segment>, f: Filter)
    ensures PathsFrom(obj, i, Render(prefix), f) == RenderAll(LeavesFrom(obj, i, prefix, f))
    decreases obj, Count(obj) - i
  {
    hide Extend, Render, Hit;
    if i < Count(obj) {
      var path := prefix + [SegmentAt(obj, i)];
      RenderExtend(prefix, SegmentAt(obj, i));
      PrintsLeaves(Child(obj, i), 0, path, f);
      PrintsLeaves(obj, i + 1, prefix, f);
      LeavesSplit(obj, i, prefix, f);
      RenderAllConcat(OwnPaths(obj, i, prefix, f), LeavesFrom(obj, i + 1, prefix, f));
      assert RenderAll([path]) == [Render(path)];
    }
  }

  // ---------- Exactly the matches ----------

  lemma {:induction false} FindChild(obj: Json, i: nat, j: nat)
    requires WellFormed(obj) && i <= j < Count(obj)
    ensures Find(obj, SegmentAt(obj, j), i) == Some(Child(obj, j))
    decreases j - i
  {
    if i < j { FindChild(obj, i + 1, j); }
  }

  lemma {:induction false} FindSound(obj: Json, segment: Segment, i: nat)
    ensures Find(obj, segment, i).Some? ==> exists j: nat :: i <= j < Count(obj) && SegmentAt(obj, j) == segment
    decreases Count(obj) - i
  {
    if i < Count(obj) && SegmentAt(obj, i) != segment { FindSound(obj, segment, i + 1); }
  }

  /** A match through child i is either that child itself or a match below it. */
  lemma MatchesThrough(obj: Json, i: nat, rest: seq<Segment>, f: Filter)
    requires WellFormed(obj) && i < Count(obj)
    ensures Matches(obj, [SegmentAt(obj, i)] + rest, f)
       <==> if rest == [] then Hit(obj, i, f) else Matches(Child(obj, i), rest, f)
  {
    FindChild(obj, 0, i);
    var path := [SegmentAt(obj, i)] + rest;
    assert path[1..] == rest;
    if rest == [] { assert At(Child(obj, i), rest) == Some(Child(obj, i)); }
  }

  ghost predicate ExactFrom(obj: Json, i: nat, prefix: seq<Segment>, f: Filter) {
    forall path :: path in LeavesFrom(obj, i, prefix, f) <==>
      prefix <= path && MatchesFrom(obj, i, path[|prefix|..], f)
  }

  lemma {:induction false} LeavesAreMatches(obj: Json, i: nat, prefix: seq<Segment>, f: Filter)
    requires WellFormed(obj)
    ensures ExactFrom(obj, i, prefix, f)
    decreases obj, Count(obj) - i
  {
    if i < Count(obj) {
      var here := prefix + [SegmentAt(obj, i)];
      LeavesAreMatches(Child(obj, i), 0, here, f);
      LeavesAreMatches(obj, i + 1, prefix, f);
      forall path
        ensures path in LeavesFrom(obj, i, prefix, f) <==> prefix <= path && MatchesFrom(obj, i, path[|prefix|..], f)
      {
        LeafSplit(obj, i, prefix, f, path);
      }
    }
  }

  /** What child i contributes. */
  function OwnPaths(obj: Json, i: nat, prefix: seq<Segment>, f: Filter): seq<seq<Segment>>
    requires i < Count(obj)
  {
    var here := prefix + [SegmentAt(obj, i)];
    if Hit(obj, i, f) then [here] else LeavesFrom(Child(obj, i), 0, here, f)
  }

  lemma LeavesSplit(obj: Json, i: nat, prefix: seq<Segment>, f: Filter)
    requires i < Count(obj)
    ensures LeavesFrom(obj, i, prefix, f) == OwnPaths(obj, i, prefix, f) + LeavesFrom(obj, i + 1, prefix, f)
  {
  }

  lemma ExactAt(obj: Json, i: nat, prefix: seq<Segment>, f: Filter, path: seq<Segment>)
    requires ExactFrom(obj, i, prefix, f)
    ensures path in LeavesFrom(obj, i, prefix, f) <==> prefix <= path && MatchesFrom(obj, i, path[|prefix|..], f)
  {
    hide LeavesFrom, MatchesFrom;
  }

  lemma LeafSplit(obj: Json, i: nat, prefix: seq<Segment>, f: Filter, path: seq<Segment>)
    requires WellFormed(obj) && i < Count(obj)
    requires ExactFrom(Child(obj, i), 0, prefix + [SegmentAt(obj, i)], f) && ExactFrom(obj, i + 1, prefix, f)
    ensures path in LeavesFrom(obj, i, prefix, f) <==> prefix <= path && MatchesFrom(obj, i, path[|prefix|..], f)
  {
    hide *;
    LeavesSplit(obj, i, prefix, f);
    OwnLeaves(obj, i, prefix, f, path);
    ExactAt(obj, i + 1, prefix, f, path);
    if prefix <= path {
      var rest := path[|prefix|..];
      FromSplit(obj, i, rest, f);
      assert prefix + [SegmentAt(obj, i)] <= path <==> rest != [] && rest[0] == SegmentAt(obj, i);
    }
  }

  lemma FromSplit(obj: Json, i: nat, rest: seq<Segment>, f: Filter)
    requires i < Count(obj)
    ensures MatchesFrom(obj, i, rest, f)
       <==> (rest != [] && rest[0] == SegmentAt(obj, i) && Matches(obj, rest, f)) || MatchesFrom(obj, i + 1, rest, f)
  {
    NoEmptyMatch(obj, f);
  }

  lemma NoEmptyMatch(obj: Json, f: Filter)
    ensures !Matches(obj, [], f)
  {
  }

  lemma OwnLeaves(obj: Json, i: nat, prefix: seq<Segment>, f: Filter, path: seq<Segment>)
    requires WellFormed(obj) && i < Count(obj)
    requires ExactFrom(Child(obj, i), 0, prefix + [SegmentAt(obj, i)], f)
    ensures var here := prefix + [SegmentAt(obj, i)];
            path in OwnPaths(obj, i, prefix, f) <==> here <= path && Matches(obj, path[|prefix|..], f)
  {
    var here := prefix + [SegmentAt(obj, i)];
    if here <= path {
      var rest := path[|here|..];
      assert path[|prefix|..] == [SegmentAt(obj, i)] + rest;
      MatchesThrough(obj, i, rest, f);
      BelowMatches(Child(obj, i), rest, f);
      NoEmptyMatch(Child(obj, i), f);
      if Hit(obj, i, f) { StringHasNoPaths(Child(obj, i), rest, f); }
      hide Matches, WellFormed, LeavesFrom, MatchesFrom;
      assert rest == [] <==> path == here;
    }
  }

  /** Every match starts at some child. */
  lemma BelowMatches(obj: Json, path: seq<Segment>, f: Filter)
    ensures MatchesFrom(obj, 0, path, f) <==> Matches(obj, path, f)
  {
    if Matches(obj, path, f) { FindSound(obj, path[0], 0); }
  }

  lemma StringHasNoPaths(obj: Json, path: seq<Segment>, f: Filter)
    requires obj.Str?
    ensures !Matches(obj, path, f)
  {
  }

  predicate Distinct<T(==)>(s: seq<T>) { forall j, k :: 0 <= j < k < |s| ==> s[j] != s[k] }

  lemma DistinctConcat<T>(a: seq<T>, b: seq<T>)
    requires Distinct(a) && Distinct(b)
    requires forall x :: x in a ==> x !in b
    ensures Distinct(a + b)
  {
    forall j, k | 0 <= j < k < |a + b| ensures (a + b)[j] != (a + b)[k] {
      if j < |a| <= k { assert a[j] in a && b[k - |a|] in b; }
    }
  }

  lemma {:induction false} LeavesDistinct(obj: Json, i: nat, prefix: seq<Segment>, f: Filter)
    requires WellFormed(obj)
    ensures Distinct(LeavesFrom(obj, i, prefix, f))
    decreases obj, Count(obj) - i
  {
    hide *;
    if i >= Count(obj) {
      NoLeaves(obj, i, prefix, f);
    } else {
      ChildWellFormed(obj, i);
      LeavesDistinct(Child(obj, i), 0, prefix + [SegmentAt(obj, i)], f);
      LeavesDistinct(obj, i + 1, prefix, f);
      LeavesAreMatches(Child(obj, i), 0, prefix + [SegmentAt(obj, i)], f);
      LeavesAreMatches(obj, i + 1, prefix, f);
      OwnDistinct(obj, i, prefix, f);
      LeavesSplit(obj, i, prefix, f);
      var own, others := OwnPaths(obj, i, prefix, f), LeavesFrom(obj, i + 1, prefix, f);
      forall path | path in own ensures path !in others { OwnIsApart(obj, i, prefix, f, path); }
      DistinctConcat(own, others);
    }
  }

  lemma NoLeaves(obj: Json, i: nat, prefix: seq<Segment>, f: Filter)
    requires i >= Count(obj)
    ensures Distinct(LeavesFrom(obj, i, prefix, f))
  {
  }

  lemma ChildWellFormed(obj: Json, i: nat)
    requires WellFormed(obj) && i < Count(obj)
    ensures WellFormed(Child(obj, i))
  {
  }

  lemma OwnDistinct(obj: Json, i: nat, prefix: seq<Segment>, f: Filter)
    requires i < Count(obj) && Distinct(LeavesFrom(Child(obj, i), 0, prefix + [SegmentAt(obj, i)], f))
    ensures Distinct(OwnPaths(obj, i, prefix, f))
  {
    hide LeavesFrom;
  }

  lemma OwnIsApart(obj: Json, i: nat, prefix: seq<Segment>, f: Filter, path: seq<Segment>)
    requires WellFormed(obj) && i < Count(obj)
    requires ExactFrom(Child(obj, i), 0, prefix + [SegmentAt(obj, i)], f) && ExactFrom(obj, i + 1, prefix, f)
    requires path in OwnPaths(obj, i, prefix, f)
    ensures path !in LeavesFrom(obj, i + 1, prefix, f)
  {
    hide LeavesFrom, Matches, OwnPaths, ExactFrom;
    OwnLeaves(obj, i, prefix, f, path);
    ExactAt(obj, i + 1, prefix, f, path);
    assert path[|prefix|..][0] == SegmentAt(obj, i);
  }

  /** On every tree, whatever its keys: what is printed is the rendering of the paths that
      lead to a matching string through a key, each path once, in order. */
  lemma PrintsTheMatches(obj: Json, f: Filter)
    requires WellFormed(obj)
    ensures Paths(obj, f) == RenderAll(Leaves(obj, f)) && Distinct(Leaves(obj, f))
    ensures forall path :: path in Leaves(obj, f) <==> Matches(obj, path, f)
  {
    PrintsLeaves(obj, 0, [], f);
    LeavesAreMatches(obj, 0, [], f);
    LeavesDistinct(obj, 0, [], f);
    hide LeavesFrom, PathsFrom, WellFormed, Matches, MatchesFrom;
    forall path ensures path in Leaves(obj, f) <==> Matches(obj, path, f) {
      ExactAt(obj, 0, [], f, path);
      assert path[0..] == path;
      BelowMatches(obj, path, f);
    }
  }

  // ---------- Parsing back ----------

  predicate CleanChar(c: char) { c != '.' && c != '[' && c != ']' }

  predicate CleanName(name: string) { forall k :: 0 <= k < |name| ==> CleanChar(name[k]) }

  predicate CleanSegment(segment: Segment) { segment.Key? ==> CleanName(segment.name) }

  predicate CleanPath(path: seq<Segment>) { forall k :: 0 <= k < |path| ==> CleanSegment(path[k]) }

  /** No key on the path contains a dot or a bracket, and it does not start with the empty
      key: as long as nothing is printed, empty keys vanish; later ones do not. */
  predicate Readable(path: seq<Segment>) { CleanPath(path) && (path != [] ==> path[0] != Key("")) }

  /** The same, said step by step: no key is empty while what is printed still is. */
  lemma ReadableStepwise(path: seq<Segment>)
    ensures Readable(path)
       <==> CleanPath(path) && forall k :: 0 <= k < |path| && path[k] == Key("") ==> Render(path[..k]) != ""
  {
    hide CleanPath, Extend, Tail, Piece;
    if path != [] && path[0] == Key("") {
      assert Render(path[..0]) == "";
    } else {
      forall k | 0 < k < |path| ensures Render(path[..k]) != "" { RenderIsTail(path[..k]); }
    }
  }

  function Piece(segment: Segment): string {
    match segment
    case Key(name) => "." + name
    case Index(at) => "[" + Decimal(at) + "]"
  }

  function Tail(path: seq<Segment>): string {
    if path == [] then "" else Piece(path[0]) + Tail(path[1..])
  }

  lemma {:induction false} TailAppend(path: seq<Segment>, segment: Segment)
    ensures Tail(path + [segment]) == Tail(path) + Piece(segment)
  {
    hide Piece;
    if path == [] {
      assert [] + [segment] == [segment] && [segment][1..] == [];
      assert Piece(segment) + "" == "" + Piece(segment);
    } else {
      TailAppend(path[1..], segment);
      assert (path + [segment])[1..] == path[1..] + [segment];
      Associative(Piece(path[0]), Tail(path[1..]), Piece(segment));
    }
  }

  lemma ExtendAppends(currentPath: string, segment: Segment)
    requires currentPath != "" || segment.Index?
    ensures Extend(currentPath, segment) == currentPath + Piece(segment)
  {
    match segment {
      case Key(name) => Associative(currentPath, ".", name);
      case Index(at) =>
        Associative(currentPath, "[", Decimal(at));
        Associative(currentPath, "[" + Decimal(at), "]");
    }
  }

  /** Once something is printed the path grows by a piece per step; a leading key has no dot. */
  lemma {:induction false} RenderIsTail(path: seq<Segment>)
    requires path != [] && path[0] != Key("")
    ensures Render(path) != ""
    ensures if path[0].Key? then "." + Render(path) == Tail(path) && Render(path)[0] == path[0].name[0]
            else Render(path) == Tail(path)
  {
    var init, last := path[..|path| - 1], path[|path| - 1];
    assert path == init + [last];
    TailAppend(init, last);
    if init == [] {
      assert Render(init) == "" && Tail(init) == "" && "" + Piece(last) == Piece(last);
      if last.Index? { ExtendAppends("", last); }
    } else {
      RenderIsTail(init);
      ExtendAppends(Render(init), last);
      assert Render(path) == Render(init) + Piece(last);
      hide Render, Tail, Piece, Extend;
      Associative(".", Render(init), Piece(last));
    }
  }

  function NameLength(s: string): (n: nat)
    ensures n <= |s|
    ensures forall k :: 0 <= k < n ==> CleanChar(s[k])
  {
    if s == "" || !CleanChar(s[0]) then 0 else 1 + NameLength(s[1..])
  }

  function Number(s: string): nat
    requires IsDigits(s)
  {
    if s == "" then 0 else Number(s[..|s| - 1]) * 10 + (s[|s| - 1] - '0') as nat
  }

  predicate IsDigits(s: string) { forall k :: 0 <= k < |s| ==> '0' <= s[k] <= '9' }

  /** Reads ".name" and "[n]" pieces; anything else ends the path. */
  function ParseTail(s: string): (path: seq<Segment>)
    ensures CleanPath(path)
    decreases |s|
  {
    if s == "" then [] else
    var n := NameLength(s[1..]);
    var word, rest := s[1..][..n], s[1..][n..];
    if s[0] == '.' then [Key(word)] + ParseTail(rest)
    else if s[0] == '[' && rest != "" && rest[0] == ']' && IsDigits(word)
      then [Index(Number(word))] + ParseTail(rest[1..])
    else []
  }

  function Parse(s: string): seq<Segment> {
    if s == "" then [] else if s[0] == '[' then ParseTail(s) else ParseTail("." + s)
  }

  lemma {:induction false} DecimalDigits(n: nat)
    ensures IsDigits(Decimal(n)) && CleanName(Decimal(n)) && Number(Decimal(n)) == n
    ensures Decimal(n) != "" && (n > 0 ==> Decimal(n)[0] != '0') && (n == 0 ==> Decimal(n) == "0")
  {
    if n < 10 {
      assert Decimal(n)[..0] == "";
    } else {
      DecimalDigits(n / 10);
      var s := Decimal(n);
      assert s[..|s| - 1] == Decimal(n / 10) && s[|s| - 1] == Digit(n % 10);
    }
  }

  lemma {:induction false} NameEnds(name: string, rest: string)
    requires CleanName(name) && (rest == "" || !CleanChar(rest[0]))
    ensures NameLength(name + rest) == |name|
  {
    if name == "" {
      assert name + rest == rest;
    } else {
      assert (name + rest)[1..] == name[1..] + rest;
      NameEnds(name[1..], rest);
    }
  }

  lemma TailStarts(path: seq<Segment>)
    ensures Tail(path) == "" || !CleanChar(Tail(path)[0])
  {
  }

  lemma ParseKey(name: string, rest: string)
    requires CleanName(name) && (rest == "" || !CleanChar(rest[0]))
    ensures ParseTail("." + name + rest) == [Key(name)] + ParseTail(rest)
  {
    var s := "." + name + rest;
    assert s[1..] == name + rest;
    NameEnds(name, rest);
    assert s[1..][..|name|] == name && s[1..][|name|..] == rest;
  }

  lemma ParseIndex(at: nat, rest: string)
    ensures ParseTail("[" + Decimal(at) + "]" + rest) == [Index(at)] + ParseTail(rest)
  {
    var word := Decimal(at);
    var s := "[" + word + "]" + rest;
    DecimalDigits(at);
    hide Decimal, Number, CleanName;
    assert s[1..] == word + ("]" + rest);
    NameEnds(word, "]" + rest);
    assert s[1..][..|word|] == word && s[1..][|word|..] == "]" + rest && ("]" + rest)[1..] == rest;
  }

  lemma {:induction false} ParseTailInverts(path: seq<Segment>)
    requires CleanPath(path)
    ensures ParseTail(Tail(path)) == path
  {
    if path != [] {
      ParseTailInverts(path[1..]);
      TailStarts(path[1..]);
      assert path == [path[0]] + path[1..] && CleanSegment(path[0]);
      hide ParseTail, Decimal;
      match path[0] {
        case Key(name) => ParseKey(name, Tail(path[1..]));
        case Index(at) => ParseIndex(at, Tail(path[1..]));
      }
    }
  }

  lemma ParseReadable(path: seq<Segment>)
    requires Readable(path)
    ensures Parse(Render(path)) == path
  {
    if path != [] {
      ParseTailInverts(path);
      RenderIsTail(path);
      assert CleanSegment(path[0]) && (path[0].Key? ==> CleanChar(path[0].name[0]));
      hide ParseTail, Render, CleanPath;
      assert path[0].Index? ==> Tail(path)[0] == '[' by { hide Decimal; }
    }
  }

  /** The path without the empty keys it starts with. */
  function Strip(path: seq<Segment>): (r: seq<Segment>)
    ensures |r| <= |path| && (r != [] ==> r[0] != Key(""))
    ensures CleanPath(path) ==> CleanPath(r)
    ensures r == path <==> (path != [] ==> path[0] != Key(""))
  {
    if path != [] && path[0] == Key("") then Strip(path[1..]) else path
  }

  lemma {:induction false} RenderStrips(path: seq<Segment>)
    ensures Render(path) == Render(Strip(path))
  {
    if path != [] && path[0] == Key("") {
      RenderSkips(path);
      RenderStrips(path[1..]);
    }
  }

  lemma {:induction false} RenderSkips(path: seq<Segment>)
    requires path != [] && path[0] == Key("")
    ensures Render(path) == Render(path[1..])
  {
    if |path| == 1 {
      assert path[..0] == [];
    } else {
      var init := path[..|path| - 1];
      RenderSkips(init);
      assert init[1..] == path[1..][..|path| - 2];
    }
  }

  /** With clean keys a printed path reads back without the empty keys it starts with. */
  lemma ParseStrips(path: seq<Segment>)
    requires CleanPath(path)
    ensures Parse(Render(path)) == Strip(path)
  {
    hide Parse, Render, Strip;
    RenderStrips(path);
    ParseReadable(Strip(path));
  }

  /** A printed path reads back as the path if and only if it is readable. */
  lemma ParseInverts(path: seq<Segment>)
    ensures Parse(Render(path)) == path <==> Readable(path)
  {
    if CleanPath(path) {
      hide Parse, Render;
      ParseStrips(path);
    } else {
      assert CleanPath(Parse(Render(path))) by { hide Render; }
    }
  }

  /** When every path to a matching string is readable, the printed paths are distinct, each
      parses to a path that leads to a matching string directly under a key and prints back
      as itself, and the path of every such string is printed. */
  lemma PrintsExactlyTheMatches(obj: Json, f: Filter)
    requires WellFormed(obj) && forall path :: Matches(obj, path, f) ==> Readable(path)
    ensures Distinct(Paths(obj, f))
    ensures forall s :: s in Paths(obj, f) ==> Matches(obj, Parse(s), f) && Render(Parse(s)) == s
    ensures forall path :: Matches(obj, path, f) ==> Render(path) in Paths(obj, f) && Parse(Render(path)) == path
  {
    PrintsTheMatches(obj, f);
    hide *;
    var leaves := Leaves(obj, f);
    forall k | 0 <= k < |leaves| ensures Readable(leaves[k]) { assert leaves[k] in leaves; }
    AllReadBack(leaves);
    PrintedDistinct(leaves, RenderAll(leaves));
    forall s | s in RenderAll(leaves) ensures Parse(s) in leaves && Render(Parse(s)) == s { PrintedFrom(leaves, s); }
    forall path | path in leaves
      ensures Render(path) in RenderAll(leaves) && Parse(Render(path)) == path
    {
      Printed(leaves, path);
    }
  }

  lemma AllReadBack(leaves: seq<seq<Segment>>)
    requires forall k :: 0 <= k < |leaves| ==> Readable(leaves[k])
    ensures forall k :: 0 <= k < |leaves| ==> Parse(RenderAll(leaves)[k]) == leaves[k]
  {
    hide *;
    forall k | 0 <= k < |leaves| ensures Parse(RenderAll(leaves)[k]) == leaves[k] { ParseInverts(leaves[k]); }
  }

  lemma PrintedFrom(leaves: seq<seq<Segment>>, s: string)
    requires forall k :: 0 <= k < |leaves| ==> Parse(RenderAll(leaves)[k]) == leaves[k]
    requires s in RenderAll(leaves)
    ensures Parse(s) in leaves && Render(Parse(s)) == s
  {
    hide *;
    var k :| 0 <= k < |leaves| && RenderAll(leaves)[k] == s;
  }

  lemma Printed(leaves: seq<seq<Segment>>, path: seq<Segment>)
    requires forall k :: 0 <= k < |leaves| ==> Parse(RenderAll(leaves)[k]) == leaves[k]
    requires path in leaves
    ensures Render(path) in RenderAll(leaves) && Parse(Render(path)) == path
  {
    hide *;
    var k :| 0 <= k < |leaves| && leaves[k] == path;
    assert RenderAll(leaves)[k] == Render(path);
  }

  lemma PrintedDistinct(leaves: seq<seq<Segment>>, printed: seq<string>)
    requires Distinct(leaves) && |printed| == |leaves|
             && forall k :: 0 <= k < |leaves| ==> Parse(printed[k]) == leaves[k]
    ensures Distinct(printed)
  {
    hide Parse;
  }

  /** A key with a dot prints like a nested key. */
  lemma DottedKeysCollide(text: string, f: Filter)
    requires f(text)
    ensures var obj := Obj([("a.b", Str(text)), ("a", Obj([("b", Str(text))]))]);
            WellFormed(obj) && Paths(obj, f) == ["a.b", "a.b"]
  {
    var inner := Obj([("b", Str(text))]);
    var obj := Obj([("a.b", Str(text)), ("a", inner)]);
    assert Extend("a", Key("b")) == "a.b" && Extend("", Key("a")) == "a" && Extend("", Key("a.b")) == "a.b";
    assert Hit(inner, 0, f) && Hit(obj, 0, f) && !Hit(obj, 1, f);
    assert PathsFrom(inner, 1, "a", f) == [];
    assert PathsFrom(inner, 0, "a", f) == ["a.b"] + [];
    assert PathsFrom(obj, 2, "", f) == [];
    assert PathsFrom(obj, 1, "", f) == PathsFrom(inner, 0, "a", f) + [];
  }

  // ---------- The function, with its shared accumulator ----------

  class PathList {
    var items: seq<string>

    constructor ()
      ensures items == []
    {
      items := [];
    }

    method Push(path: string)
      modifies this
      ensures items == old(items) + [path]
    {
      items := items + [path];
    }
  }

  method GetAllKeyPaths(obj: Json, currentPath: string, paths: PathList, valueFilter: Filter)
    modifies paths
    ensures paths.items == old(paths.items) + PathsFrom(obj, 0, currentPath, valueFilter)
    decreases obj
  {
    ghost var goal := paths.items + PathsFrom(obj, 0, currentPath, valueFilter);
    hide PathsFrom, Extend;
    for i := 0 to Count(obj)
      invariant goal == paths.items + PathsFrom(obj, i, currentPath, valueFilter)
    {
      PathsStep(obj, i, currentPath, valueFilter, paths.items);
      var newPath := Extend(currentPath, SegmentAt(obj, i));
      if obj.Obj? && Child(obj, i).Str? && valueFilter(Child(obj, i).text) {
        paths.Push(newPath);
      } else {
        GetAllKeyPaths(Child(obj, i), newPath, paths, valueFilter);
      }
    }
    NoMorePaths(obj, currentPath, valueFilter);
    assert paths.items + [] == paths.items;
  }

  lemma PathsStep(obj: Json, i: nat, currentPath: string, f: Filter, done: seq<string>)
    requires i < Count(obj)
    ensures var newPath := Extend(currentPath, SegmentAt(obj, i));
            var own := if Hit(obj, i, f) then [newPath] else PathsFrom(Child(obj, i), 0, newPath, f);
            done + PathsFrom(obj, i, currentPath, f) == done + own + PathsFrom(obj, i + 1, currentPath, f)
  {
    var newPath := Extend(currentPath, SegmentAt(obj, i));
    var own := if Hit(obj, i, f) then [newPath] else PathsFrom(Child(obj, i), 0, newPath, f);
    var rest := PathsFrom(obj, i + 1, currentPath, f);
    assert PathsFrom(obj, i, currentPath, f) == own + rest;
    hide *;
    Associative(done, own, rest);
  }

  lemma NoMorePaths(obj: Json, currentPath: string, f: Filter)
    ensures PathsFrom(obj, Count(obj), currentPath, f) == []
  {
  }
}
