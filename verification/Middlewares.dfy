/** YAML values, and how a router's middleware references expand through chains. */
module Middlewares {
  import opened Text

  /** A value as the YAML loader gives it; a mapping keeps the order of its keys. */
  datatype Value =
    | Null
    | Bool(b: bool)
    | Int(i: int)
    | Text(text: string)
    | Items(items: seq<Value>)
    | Fields(fields: seq<(string, Value)>)
    | Other(shown: string)

  function Get(fields: seq<(string, Value)>, key: string): Option<Value> {
    if fields == [] then None
    else if fields[0].0 == key then Some(fields[0].1)
    else Get(fields[1..], key)
  }

  function Keys(fields: seq<(string, Value)>): set<string> {
    set f <- fields :: f.0
  }

  function Digits(n: nat): string {
    var last := [(n % 10 + '0' as int) as char];
    if n < 10 then last else Digits(n / 10) + last
  }

  /** Python's `str` of a scalar. */
  function Show(v: Value): string {
    match v
    case Null => "None"
    case Bool(b) => if b then "True" else "False"
    case Int(i) => if i < 0 then "-" + Digits(-i) else Digits(i)
    case Text(s) => s
    case Other(s) => s
    case Items(_) => "["
    case Fields(_) => "{"
  }

  /** The middleware a reference names: its text up to the provider, as in `name@file`. */
  function NameOf(ref: Value): string {
    Show(ref)[..Find(Show(ref), 0, '@')]
  }

  type Definitions = map<string, Value>

  datatype Applied = Applied(name: string, kind: string, body: Value)

  datatype Fault =
    | Undefined(name: string)
    | Cycle(name: string)
    | MalformedChain(name: string)

  datatype Expansion = Expansion(items: seq<Applied>, faults: seq<Fault>)

  predicate Defined(defs: Definitions, name: string) {
    name in defs && defs[name].Fields?
  }

  predicate IsChain(defs: Definitions, name: string)
    requires Defined(defs, name)
  {
    Get(defs[name].fields, "chain").Some?
  }

  /** The references a chain lists, or None when the chain is malformed. */
  function ChainMembers(defs: Definitions, name: string): Option<seq<Value>>
    requires Defined(defs, name) && IsChain(defs, name)
  {
    var chain := Get(defs[name].fields, "chain").value;
    if !chain.Fields? then None
    else match Get(chain.fields, "middlewares")
      case Some(Items(members)) => Some(members)
      case _ => None
  }

  /** A chain lists the members of its middlewares, and is malformed where these are no list. */
  lemma ChainMembersExact(defs: Definitions, name: string, chain: Value)
    requires Defined(defs, name) && Get(defs[name].fields, "chain") == Some(chain)
    ensures forall members ::
      ChainMembers(defs, name) == Some(members) <==> chain.Fields? && Get(chain.fields, "middlewares") == Some(Items(members))
  {
  }

  /** The kinds a definition without a chain applies, in order. */
  function OwnKinds(name: string, fields: seq<(string, Value)>): seq<Applied> {
    if fields == [] then [] else [Applied(name, fields[0].0, fields[0].1)] + OwnKinds(name, fields[1..])
  }

  function Names(trail: seq<string>): set<string> {
    set n <- trail
  }

  /** What one reference applies: its own kinds, or those of its chain's members. */
  function Expand(ref: Value, defs: Definitions, trail: seq<string>): Expansion
    decreases defs.Keys - Names(trail), 0
  {
    var name := NameOf(ref);
    if !Defined(defs, name) then Expansion([], [Undefined(name)])
    else if name in trail then Expansion([], [Cycle(name)])
    else if !IsChain(defs, name) then Expansion(OwnKinds(name, defs[name].fields), [])
    else
      var members := ChainMembers(defs, name);
      if members.None? then Expansion([], [MalformedChain(name)])
      else
        assert name in defs.Keys - Names(trail) && name !in defs.Keys - Names(trail + [name]);
        ExpandAll(members.value, defs, trail + [name])
  }

  function ExpandAll(refs: seq<Value>, defs: Definitions, trail: seq<string>): Expansion
    decreases defs.Keys - Names(trail), 1, |refs|
  {
    if refs == [] then Expansion([], [])
    else
      var first := Expand(refs[0], defs, trail);
      var more := ExpandAll(refs[1..], defs, trail);
      Expansion(first.items + more.items, first.faults + more.faults)
  }

  /** Every middleware a router applies; a reference list that is no list applies nothing. */
  function Resolve(refs: Value, defs: Definitions): Expansion {
    if refs.Items? then ExpandAll(refs.items, defs, []) else Expansion([], [])
  }

  /** A definition without a chain applies every kind it holds, with its body, in order. */
  lemma {:induction false} OwnKindsExact(name: string, fields: seq<(string, Value)>)
    ensures |OwnKinds(name, fields)| == |fields|
    ensures forall i | 0 <= i < |fields| :: OwnKinds(name, fields)[i] == Applied(name, fields[i].0, fields[i].1)
  {
    if fields != [] {
      OwnKindsExact(name, fields[1..]);
    }
  }

  // ----- what the references mean -----

  /** The reference unfolded at most `depth` levels; None if that is not enough, or if it means nothing. */
  function Unfold(ref: Value, defs: Definitions, depth: nat): Option<seq<Applied>>
    decreases depth, 0
  {
    var name := NameOf(ref);
    if depth == 0 || !Defined(defs, name) then None
    else if !IsChain(defs, name) then Some(OwnKinds(name, defs[name].fields))
    else
      var members :- ChainMembers(defs, name);
      UnfoldAll(members, defs, depth - 1)
  }

  function UnfoldAll(refs: seq<Value>, defs: Definitions, depth: nat): Option<seq<Applied>>
    decreases depth, 1, |refs|
  {
    if refs == [] then Some([])
    else
      var first :- Unfold(refs[0], defs, depth);
      var more :- UnfoldAll(refs[1..], defs, depth);
      Some(first + more)
  }

  /** The meaning of a list of references: what some finite unfolding gives. */
  ghost predicate Means(refs: seq<Value>, defs: Definitions, items: seq<Applied>) {
    exists depth: nat :: UnfoldAll(refs, defs, depth) == Some(items)
  }

  lemma {:induction false} UnfoldDeeper(ref: Value, defs: Definitions, n: nat, m: nat)
    requires n <= m && Unfold(ref, defs, n).Some?
    ensures Unfold(ref, defs, m) == Unfold(ref, defs, n)
    decreases n, 0
  {
    var name := NameOf(ref);
    if IsChain(defs, name) {
      UnfoldAllDeeper(ChainMembers(defs, name).value, defs, n - 1, m - 1);
    }
  }

  lemma {:induction false} UnfoldAllDeeper(refs: seq<Value>, defs: Definitions, n: nat, m: nat)
    requires n <= m && UnfoldAll(refs, defs, n).Some?
    ensures UnfoldAll(refs, defs, m) == UnfoldAll(refs, defs, n)
    decreases n, 1, |refs|
  {
    if refs != [] {
      UnfoldDeeper(refs[0], defs, n, m);
      UnfoldAllDeeper(refs[1..], defs, n, m);
    }
  }

  lemma {:induction false} ExpandUnfolds(ref: Value, defs: Definitions, trail: seq<string>) returns (depth: nat)
    requires Expand(ref, defs, trail).faults == []
    ensures Unfold(ref, defs, depth) == Some(Expand(ref, defs, trail).items)
    decreases defs.Keys - Names(trail), 0
  {
    var name := NameOf(ref);
    if !IsChain(defs, name) {
      depth := 1;
    } else {
      assert name in defs.Keys - Names(trail) && name !in defs.Keys - Names(trail + [name]);
      depth := ExpandAllUnfolds(ChainMembers(defs, name).value, defs, trail + [name]);
      depth := depth + 1;
    }
  }

  lemma {:induction false} ExpandAllUnfolds(refs: seq<Value>, defs: Definitions, trail: seq<string>) returns (depth: nat)
    requires ExpandAll(refs, defs, trail).faults == []
    ensures UnfoldAll(refs, defs, depth) == Some(ExpandAll(refs, defs, trail).items)
    decreases defs.Keys - Names(trail), 1, |refs|
  {
    if refs == [] {
      depth := 0;
    } else {
      var n := ExpandUnfolds(refs[0], defs, trail);
      var m := ExpandAllUnfolds(refs[1..], defs, trail);
      depth := if n < m then m else n;
      UnfoldDeeper(refs[0], defs, n, depth);
      UnfoldAllDeeper(refs[1..], defs, m, depth);
    }
  }

  /** None of the names on the trail unfolds within `depth` levels. */
  ghost predicate TrailIsDeeper(defs: Definitions, trail: seq<string>, depth: nat) {
    forall ref: Value | NameOf(ref) in trail :: Unfold(ref, defs, depth).None?
  }

  lemma UnfoldByName(a: Value, b: Value, defs: Definitions, depth: nat)
    requires NameOf(a) == NameOf(b)
    ensures Unfold(a, defs, depth) == Unfold(b, defs, depth)
  {
  }

  lemma {:induction false} UnfoldExpands(ref: Value, defs: Definitions, trail: seq<string>, depth: nat)
    requires Unfold(ref, defs, depth).Some? && TrailIsDeeper(defs, trail, depth)
    ensures Expand(ref, defs, trail) == Expansion(Unfold(ref, defs, depth).value, [])
    decreases depth, 0
  {
    var name := NameOf(ref);
    if IsChain(defs, name) {
      if Unfold(ref, defs, depth - 1).Some? {
        UnfoldDeeper(ref, defs, depth - 1, depth);
        forall t: Value | NameOf(t) in trail
          ensures Unfold(t, defs, depth - 1).None?
        {
          if Unfold(t, defs, depth - 1).Some? {
            UnfoldDeeper(t, defs, depth - 1, depth);
          }
        }
        UnfoldExpands(ref, defs, trail, depth - 1);
      } else {
        forall t: Value | NameOf(t) in trail + [name]
          ensures Unfold(t, defs, depth - 1).None?
        {
          if NameOf(t) == name {
            UnfoldByName(t, ref, defs, depth - 1);
          } else if Unfold(t, defs, depth - 1).Some? {
            UnfoldDeeper(t, defs, depth - 1, depth);
          }
        }
        UnfoldAllExpands(ChainMembers(defs, name).value, defs, trail + [name], depth - 1);
      }
    }
  }

  lemma {:induction false} UnfoldAllExpands(refs: seq<Value>, defs: Definitions, trail: seq<string>, depth: nat)
    requires UnfoldAll(refs, defs, depth).Some? && TrailIsDeeper(defs, trail, depth)
    ensures ExpandAll(refs, defs, trail) == Expansion(UnfoldAll(refs, defs, depth).value, [])
    decreases depth, 1, |refs|
  {
    if refs != [] {
      UnfoldExpands(refs[0], defs, trail, depth);
      UnfoldAllExpands(refs[1..], defs, trail, depth);
    }
  }

  /**
   Expansion reports nothing exactly when the references have a finite meaning, and then it is that
   meaning: trails detect every cycle, and only cycles.
   */
  lemma ExpansionExact(refs: seq<Value>, defs: Definitions, items: seq<Applied>)
    ensures ExpandAll(refs, defs, []) == Expansion(items, []) <==> Means(refs, defs, items)
  {
    if ExpandAll(refs, defs, []) == Expansion(items, []) {
      var depth := ExpandAllUnfolds(refs, defs, []);
    }
    if Means(refs, defs, items) {
      var depth: nat :| UnfoldAll(refs, defs, depth) == Some(items);
      UnfoldAllExpands(refs, defs, [], depth);
    }
  }

  // ----- reachability -----

  ghost predicate Lists(refs: seq<Value>, name: string) {
    exists ref <- refs :: NameOf(ref) == name
  }

  /** `a` is a chain that lists `b`. */
  ghost predicate ChainStep(defs: Definitions, a: string, b: string) {
    Defined(defs, a) && IsChain(defs, a) && ChainMembers(defs, a).Some? && Lists(ChainMembers(defs, a).value, b)
  }

  ghost predicate ChainPath(defs: Definitions, path: seq<string>) {
    path != [] && forall k | 0 <= k < |path| - 1 :: ChainStep(defs, path[k], path[k + 1])
  }

  /** A definition without a chain, reached from the references, applies `item`. */
  ghost predicate ReachedBy(refs: seq<Value>, defs: Definitions, path: seq<string>, item: Applied) {
    && ChainPath(defs, path) && Lists(refs, path[0])
    && var last := path[|path| - 1];
       Defined(defs, last) && !IsChain(defs, last) && item in OwnKinds(last, defs[last].fields)
  }

  lemma PathTail(defs: Definitions, path: seq<string>)
    requires ChainPath(defs, path) && |path| > 1
    ensures ChainPath(defs, path[1..]) && ChainStep(defs, path[0], path[1..][0])
  {
    assert forall k | 0 <= k < |path| - 1 :: path[1..][k] == path[k + 1];
  }

  lemma PathFront(defs: Definitions, name: string, path: seq<string>)
    requires ChainPath(defs, path) && ChainStep(defs, name, path[0])
    ensures ChainPath(defs, [name] + path)
  {
  }

  lemma {:induction false} UnfoldedIsReached(ref: Value, defs: Definitions, depth: nat, item: Applied)
    returns (path: seq<string>)
    requires Unfold(ref, defs, depth).Some? && item in Unfold(ref, defs, depth).value
    ensures ReachedBy([ref], defs, path, item)
    decreases depth, 0
  {
    var name := NameOf(ref);
    assert Lists([ref], name) by { assert ref in [ref]; }
    if !IsChain(defs, name) {
      path := [name];
    } else {
      var members := ChainMembers(defs, name).value;
      var rest := UnfoldedAllReached(members, defs, depth - 1, item);
      PathFront(defs, name, rest);
      path := [name] + rest;
    }
  }

  lemma {:induction false} UnfoldedAllReached(refs: seq<Value>, defs: Definitions, depth: nat, item: Applied)
    returns (path: seq<string>)
    requires UnfoldAll(refs, defs, depth).Some? && item in UnfoldAll(refs, defs, depth).value
    ensures ReachedBy(refs, defs, path, item)
    decreases depth, 1, |refs|
  {
    if item in Unfold(refs[0], defs, depth).value {
      path := UnfoldedIsReached(refs[0], defs, depth, item);
      assert refs[0] in refs;
    } else {
      path := UnfoldedAllReached(refs[1..], defs, depth, item);
      var ref :| ref in refs[1..] && NameOf(ref) == path[0];
      assert ref in refs;
    }
  }

  lemma {:induction false} MemberUnfolds(refs: seq<Value>, defs: Definitions, depth: nat, ref: Value)
    requires UnfoldAll(refs, defs, depth).Some? && ref in refs
    ensures Unfold(ref, defs, depth).Some?
    ensures forall x <- Unfold(ref, defs, depth).value :: x in UnfoldAll(refs, defs, depth).value
  {
    if ref != refs[0] {
      MemberUnfolds(refs[1..], defs, depth, ref);
    }
  }

  /** Along a path from a reference that unfolds, every name unfolds, one level less at each step. */
  lemma {:induction false} UnfoldsAlong(ref: Value, defs: Definitions, depth: nat, path: seq<string>, end: Value)
    requires Unfold(ref, defs, depth).Some? && ChainPath(defs, path)
    requires NameOf(ref) == path[0] && NameOf(end) == path[|path| - 1]
    ensures |path| <= depth && Unfold(end, defs, depth - (|path| - 1)).Some?
    decreases |path|
  {
    if |path| == 1 {
      UnfoldByName(end, ref, defs, depth);
    } else {
      PathTail(defs, path);
      var members := ChainMembers(defs, path[0]).value;
      var m :| m in members && NameOf(m) == path[1];
      MemberUnfolds(members, defs, depth - 1, m);
      UnfoldsAlong(m, defs, depth - 1, path[1..], end);
    }
  }

  /** A name that unfolds lies on no cycle. */
  lemma {:induction false} UnfoldedHasNoCycle(ref: Value, defs: Definitions, depth: nat, path: seq<string>)
    requires ChainPath(defs, path) && |path| > 1 && NameOf(ref) == path[0] == path[|path| - 1]
    ensures Unfold(ref, defs, depth).None?
    decreases depth
  {
    if Unfold(ref, defs, depth).Some? {
      UnfoldsAlong(ref, defs, depth, path, ref);
      UnfoldedHasNoCycle(ref, defs, depth - (|path| - 1), path);
    }
  }

  /**
   If the expansion reports nothing, it holds every kind of every definition without a chain that is
   reachable from the references, and nothing else.
   */
  lemma ExpansionIsReachability(refs: seq<Value>, defs: Definitions, item: Applied)
    requires ExpandAll(refs, defs, []).faults == []
    ensures item in ExpandAll(refs, defs, []).items <==> exists path :: ReachedBy(refs, defs, path, item)
  {
    var depth := ExpandAllUnfolds(refs, defs, []);
    if item in ExpandAll(refs, defs, []).items {
      var path := UnfoldedAllReached(refs, defs, depth, item);
    }
    forall path | ReachedBy(refs, defs, path, item)
      ensures item in ExpandAll(refs, defs, []).items
    {
      var ref :| ref in refs && NameOf(ref) == path[0];
      MemberUnfolds(refs, defs, depth, ref);
      assert ref in [ref];
      EndOfPath(ref, defs, depth, path, item);
    }
  }

  lemma {:induction false} EndOfPath(ref: Value, defs: Definitions, depth: nat, path: seq<string>, item: Applied)
    requires Unfold(ref, defs, depth).Some? && ReachedBy([ref], defs, path, item)
    ensures item in Unfold(ref, defs, depth).value
    decreases |path|
  {
    if |path| > 1 {
      PathTail(defs, path);
      var members := ChainMembers(defs, path[0]).value;
      var m :| m in members && NameOf(m) == path[1];
      MemberUnfolds(members, defs, depth - 1, m);
      EndOfPath(m, defs, depth - 1, path[1..], item);
    }
  }

  lemma SubPath(defs: Definitions, path: seq<string>, i: nat, j: nat)
    requires ChainPath(defs, path) && i < j < |path|
    ensures ChainPath(defs, path[i..j + 1])
  {
    var part := path[i..j + 1];
    forall k | 0 <= k < |part| - 1
      ensures ChainStep(defs, part[k], part[k + 1])
    {
      assert ChainStep(defs, path[i + k], path[i + k + 1]);
    }
  }

  /** A cycle that can be reached from the references is always reported. */
  lemma ReachableCycleIsReported(refs: seq<Value>, defs: Definitions, path: seq<string>, i: nat, j: nat)
    requires ChainPath(defs, path) && Lists(refs, path[0])
    requires i < j < |path| && path[i] == path[j]
    ensures ExpandAll(refs, defs, []).faults != []
  {
    if ExpandAll(refs, defs, []).faults == [] {
      var depth := ExpandAllUnfolds(refs, defs, []);
      var ref :| ref in refs && NameOf(ref) == path[0];
      MemberUnfolds(refs, defs, depth, ref);
      var m, n := CycleStart(ref, defs, depth, path, i);
      SubPath(defs, path, i, j);
      UnfoldedHasNoCycle(m, defs, n, path[i..j + 1]);
    }
  }

  lemma {:induction false} CycleStart(ref: Value, defs: Definitions, depth: nat, path: seq<string>, i: nat)
    returns (m: Value, n: nat)
    requires Unfold(ref, defs, depth).Some? && ChainPath(defs, path) && NameOf(ref) == path[0] && i < |path|
    ensures NameOf(m) == path[i] && Unfold(m, defs, n).Some?
    decreases i
  {
    if i == 0 {
      m, n := ref, depth;
    } else {
      PathTail(defs, path);
      var members := ChainMembers(defs, path[0]).value;
      var next :| next in members && NameOf(next) == path[1];
      MemberUnfolds(members, defs, depth - 1, next);
      m, n := CycleStart(next, defs, depth - 1, path[1..], i - 1);
    }
  }
}
