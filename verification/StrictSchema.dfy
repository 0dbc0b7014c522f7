/** The decision whether a JSON Schema root rejects unknown object fields: follow local
    references with a set of names already on the path, require all branches of a union,
    and end at objects that forbid additional properties. */
module StrictSchema {
  import opened Ledger

  datatype Json = Null | Bool(b: bool) | Num(n: int) | Str(s: string) | Arr(items: seq<Json>) | Obj(fields: map<string, Json>)

  type Definitions = map<string, Json>

  const PREFIX := "#/$defs/"

  // ---------------------------------------------------------------- the code

  /** What follows the last slash. */
  function LastSegment(s: string): (r: string)
    ensures '/' !in r && |r| <= |s| && s[|s| - |r|..] == r
    ensures |r| < |s| ==> s[|s| - |r| - 1] == '/'
  {
    if s == [] || s[|s| - 1] == '/' then []
    else LastSegment(s[..|s| - 1]) + [s[|s| - 1]]
  }

  predicate IsRef(node: Json)
  {
    node.Obj? && "$ref" in node.fields && node.fields["$ref"].Str? && PREFIX <= node.fields["$ref"].s
  }

  function Name(node: Json): string
    requires IsRef(node)
  {
    LastSegment(node.fields["$ref"].s)
  }

  predicate HasBranches(node: Json, keyword: string)
  {
    node.Obj? && keyword in node.fields && node.fields[keyword].Arr? && node.fields[keyword].items != []
  }

  /** The first of the two union keywords with a non-empty list. */
  function Union(node: Json): (u: Option<Json>)
    ensures u.Some? ==> u.value.Arr? && u.value.items != []
  {
    if HasBranches(node, "anyOf") then Some(node.fields["anyOf"])
    else if HasBranches(node, "oneOf") then Some(node.fields["oneOf"])
    else None
  }

  predicate ClosedObject(node: Json)
  {
    && node.Obj?
    && "type" in node.fields && node.fields["type"] == Str("object")
    && "additionalProperties" in node.fields && node.fields["additionalProperties"] == Bool(false)
  }

  /** The definitions, or None when `$defs` is there and is not an object. */
  function DefinitionsOf(document: Json): Option<Definitions>
  {
    if !document.Obj? || "$defs" !in document.fields then Some(map[])
    else if document.fields["$defs"].Obj? then Some(document.fields["$defs"].fields)
    else None
  }

  /** Looking a name up in definitions that are not an object is an attribute error. */
  datatype Verdict = Answer(strict: bool) | Crash

  function Unseen(defs: Option<Definitions>, seen: set<string>): nat
  {
    if defs.None? then 0 else |defs.value.Keys - seen|
  }

  lemma UnseenShrinks(defs: Option<Definitions>, seen: set<string>, name: string)
    requires defs.Some? && name in defs.value && name !in seen
    ensures Unseen(defs, seen + {name}) < Unseen(defs, seen)
  {
    assert defs.value.Keys - (seen + {name}) == defs.value.Keys - seen - {name};
  }

  function Strict(defs: Option<Definitions>, node: Json, seen: set<string>): Verdict
    decreases Unseen(defs, seen), node
  {
    if !node.Obj? then Answer(false)
    else if IsRef(node) then
      var name := Name(node);
      if name in seen then Answer(false)
      else if defs.None? then Crash
      else if name !in defs.value then Answer(false)
      else
        UnseenShrinks(defs, seen, name);
        Strict(defs, defs.value[name], seen + {name})
    else match Union(node)
      case Some(branches) => AllStrict(defs, branches, 0, seen)
      case None => Answer(ClosedObject(node))
  }

  /** The branches from the given one on, up to the first that is not strict. */
  function AllStrict(defs: Option<Definitions>, branches: Json, from: nat, seen: set<string>): Verdict
    requires branches.Arr? && from <= |branches.items|
    decreases Unseen(defs, seen), branches, |branches.items| - from
  {
    if from == |branches.items| then Answer(true)
    else
      var first := Strict(defs, branches.items[from], seen);
      if first == Answer(true) then AllStrict(defs, branches, from + 1, seen) else first
  }

  function RootIsStrict(document: Json): Verdict
  {
    Strict(DefinitionsOf(document), document, {})
  }

  // ---------------------------------------------------------------- closed schemas

  /** One unfolding of "closed": a reference to something closed, a non-empty union of closed
      branches, or an object without additional properties. */
  ghost predicate ClosedStep(defs: Definitions, closed: Json -> bool, node: Json)
  {
    && node.Obj?
    && if IsRef(node) then Name(node) in defs && closed(defs[Name(node)])
       else match Union(node)
         case Some(branches) => forall b :: b in branches.items ==> closed(b)
         case None => ClosedObject(node)
  }

  ghost predicate ClosedWithin(defs: Definitions, node: Json, depth: nat)
    decreases depth
  {
    depth > 0 && ClosedStep(defs, n => ClosedWithin(defs, n, depth - 1), node)
  }

  ghost predicate Closed(defs: Definitions, node: Json)
  {
    exists depth: nat :: ClosedWithin(defs, node, depth)
  }

  lemma {:induction false} Deeper(defs: Definitions, node: Json, depth: nat, more: nat)
    requires ClosedWithin(defs, node, depth) && depth <= more
    ensures ClosedWithin(defs, node, more)
    decreases depth
  {
    var less := depth - 1;
    forall n | ClosedWithin(defs, n, less)
      ensures ClosedWithin(defs, n, more - 1)
    {
      Deeper(defs, n, less, more - 1);
    }
  }

  /** One depth serves any finite number of closed nodes. */
  lemma {:induction false} CommonDepth(defs: Definitions, nodes: seq<Json>) returns (depth: nat)
    requires forall b :: b in nodes ==> Closed(defs, b)
    ensures forall b :: b in nodes ==> ClosedWithin(defs, b, depth)
  {
    if nodes == [] {
      depth := 0;
    } else {
      var rest := CommonDepth(defs, nodes[1..]);
      assert nodes[0] in nodes;
      var first: nat :| ClosedWithin(defs, nodes[0], first);
      depth := if first < rest then rest else first;
      forall b | b in nodes
        ensures ClosedWithin(defs, b, depth)
      {
        if b in nodes[1..] {
          Deeper(defs, b, rest, depth);
        } else {
          Deeper(defs, b, first, depth);
        }
      }
    }
  }

  /** Closed is a fixed point of its unfolding... */
  lemma ClosedFixed(defs: Definitions, node: Json)
    ensures Closed(defs, node) <==> ClosedStep(defs, n => Closed(defs, n), node)
  {
    if Closed(defs, node) {
      var depth: nat :| ClosedWithin(defs, node, depth);
      var less: nat := depth - 1;
      assert forall n :: ClosedWithin(defs, n, less) ==> Closed(defs, n);
      assert ClosedStep(defs, n => ClosedWithin(defs, n, less), node);
    }
    if ClosedStep(defs, n => Closed(defs, n), node) {
      if IsRef(node) {
        var depth: nat :| ClosedWithin(defs, defs[Name(node)], depth);
        assert ClosedWithin(defs, node, depth + 1);
      } else if Union(node).Some? {
        var depth := CommonDepth(defs, Union(node).value.items);
        assert ClosedWithin(defs, node, depth + 1);
      } else {
        assert ClosedWithin(defs, node, 1);
      }
    }
  }

  /** ... and the least one: contained in every predicate that the unfolding maps into itself. */
  lemma ClosedLeast(defs: Definitions, p: Json -> bool, node: Json)
    requires forall n :: ClosedStep(defs, p, n) ==> p(n)
    requires Closed(defs, node)
    ensures p(node)
  {
    var depth: nat :| ClosedWithin(defs, node, depth);
    WithinLeast(defs, p, node, depth);
  }

  lemma {:induction false} WithinLeast(defs: Definitions, p: Json -> bool, node: Json, depth: nat)
    requires forall n :: ClosedStep(defs, p, n) ==> p(n)
    requires ClosedWithin(defs, node, depth)
    ensures p(node)
    decreases depth
  {
    var less := depth - 1;
    forall n | ClosedWithin(defs, n, less)
      ensures p(n)
    {
      WithinLeast(defs, p, n, less);
    }
    assert ClosedStep(defs, p, node);
  }

  // ---------------------------------------------------------------- the decision is exact

  function Known(defs: Option<Definitions>): Definitions
  {
    if defs.Some? then defs.value else map[]
  }

  lemma {:induction false} StrictCloses(defs: Option<Definitions>, node: Json, seen: set<string>)
    requires Strict(defs, node, seen) == Answer(true)
    ensures Closed(Known(defs), node)
    decreases Unseen(defs, seen), node
  {
    if IsRef(node) {
      UnseenShrinks(defs, seen, Name(node));
      StrictCloses(defs, defs.value[Name(node)], seen + {Name(node)});
    } else if Union(node).Some? {
      AllStrictClose(defs, Union(node).value, 0, seen);
    }
    ClosedFixed(Known(defs), node);
  }

  lemma {:induction false} AllStrictClose(defs: Option<Definitions>, branches: Json, from: nat, seen: set<string>)
    requires branches.Arr? && from <= |branches.items| && AllStrict(defs, branches, from, seen) == Answer(true)
    ensures forall b :: b in branches.items[from..] ==> Closed(Known(defs), b)
    decreases Unseen(defs, seen), branches, |branches.items| - from
  {
    if from < |branches.items| {
      StrictCloses(defs, branches.items[from], seen);
      AllStrictClose(defs, branches, from + 1, seen);
      assert branches.items[from..] == [branches.items[from]] + branches.items[from + 1..];
    }
  }

  lemma {:induction false} LeastDepth(defs: Definitions, node: Json, depth: nat) returns (least: nat)
    requires ClosedWithin(defs, node, depth)
    ensures 0 < least <= depth && ClosedWithin(defs, node, least) && !ClosedWithin(defs, node, least - 1)
  {
    if ClosedWithin(defs, node, depth - 1) {
      least := LeastDepth(defs, node, depth - 1);
    } else {
      least := depth;
    }
  }

  /** The names on the path lie deeper than the node: none of them can come up again below a
      closed node, so the cycle check never rejects one. */
  ghost predicate Above(defs: Definitions, seen: set<string>, depth: nat)
  {
    forall name :: name in seen && name in defs && depth > 0 ==> !ClosedWithin(defs, defs[name], depth - 1)
  }

  lemma {:induction false} ClosedIsStrict(defs: Option<Definitions>, node: Json, depth: nat, seen: set<string>)
    requires ClosedWithin(Known(defs), node, depth) && Above(Known(defs), seen, depth)
    ensures Strict(defs, node, seen) == Answer(true)
    decreases depth, 1, 0
  {
    if IsRef(node) {
      var name := Name(node);
      var target := Known(defs)[name];
      var least := LeastDepth(Known(defs), target, depth - 1);
      AboveShallower(Known(defs), seen, depth, least);
      ClosedIsStrict(defs, target, least, seen + {name});
    } else if Union(node).Some? {
      AboveShallower(Known(defs), seen, depth, depth - 1);
      BranchesStrict(defs, Union(node).value, 0, depth - 1, seen);
    }
  }

  lemma AboveShallower(defs: Definitions, seen: set<string>, depth: nat, less: nat)
    requires Above(defs, seen, depth) && less <= depth
    ensures Above(defs, seen, less)
  {
    forall name | name in seen && name in defs && less > 0
      ensures !ClosedWithin(defs, defs[name], less - 1)
    {
      if ClosedWithin(defs, defs[name], less - 1) {
        Deeper(defs, defs[name], less - 1, depth - 1);
      }
    }
  }

  lemma {:induction false} BranchesStrict(defs: Option<Definitions>, branches: Json, from: nat, depth: nat, seen: set<string>)
    requires branches.Arr? && from <= |branches.items| && Above(Known(defs), seen, depth)
    requires forall b :: b in branches.items ==> ClosedWithin(Known(defs), b, depth)
    ensures AllStrict(defs, branches, from, seen) == Answer(true)
    decreases depth, 2, |branches.items| - from
  {
    if from < |branches.items| {
      ClosedIsStrict(defs, branches.items[from], depth, seen);
      BranchesStrict(defs, branches, from + 1, depth, seen);
    }
  }

  /** The recursion with its path set decides exactly the least fixed point, on cyclic
      definitions too; and it raises only when `$defs` is not an object. */
  lemma StrictExactly(document: Json)
    ensures RootIsStrict(document) == Answer(true) <==> Closed(Known(DefinitionsOf(document)), document)
    ensures RootIsStrict(document) == Crash ==> DefinitionsOf(document).None?
  {
    var defs := DefinitionsOf(document);
    if RootIsStrict(document) == Answer(true) {
      StrictCloses(defs, document, {});
    }
    if Closed(Known(defs), document) {
      var depth: nat :| ClosedWithin(Known(defs), document, depth);
      ClosedIsStrict(defs, document, depth, {});
    }
    if defs.Some? {
      NoCrash(defs, document, {});
    }
  }

  lemma {:induction false} NoCrash(defs: Option<Definitions>, node: Json, seen: set<string>)
    requires defs.Some?
    ensures Strict(defs, node, seen) != Crash
    decreases Unseen(defs, seen), node
  {
    if node.Obj? {
      if IsRef(node) {
        if Name(node) !in seen && Name(node) in defs.value {
          UnseenShrinks(defs, seen, Name(node));
          NoCrash(defs, defs.value[Name(node)], seen + {Name(node)});
        }
      } else if Union(node).Some? {
        NoneCrash(defs, Union(node).value, 0, seen);
      }
    }
  }

  lemma {:induction false} NoneCrash(defs: Option<Definitions>, branches: Json, from: nat, seen: set<string>)
    requires defs.Some? && branches.Arr? && from <= |branches.items|
    ensures AllStrict(defs, branches, from, seen) != Crash
    decreases Unseen(defs, seen), branches, |branches.items| - from
  {
    if from < |branches.items| {
      NoCrash(defs, branches.items[from], seen);
      NoneCrash(defs, branches, from + 1, seen);
    }
  }

  // ---------------------------------------------------------------- what strictness means

  /** The node occurs in the document. */
  ghost predicate Contains(document: Json, node: Json)
  {
    || document == node
    || (document.Arr? && exists i :: 0 <= i < |document.items| && Contains(document.items[i], node))
    || (document.Obj? && exists k :: k in document.fields && Contains(document.fields[k], node))
  }

  lemma {:induction false} ContainsField(document: Json, node: Json, k: string)
    requires Contains(document, node) && node.Obj? && k in node.fields
    ensures Contains(document, node.fields[k])
  {
    if document == node {
      assert Contains(document.fields[k], node.fields[k]);
    } else if document.Arr? {
      var i :| 0 <= i < |document.items| && Contains(document.items[i], node);
      ContainsField(document.items[i], node, k);
    } else {
      var f :| f in document.fields && Contains(document.fields[f], node);
      ContainsField(document.fields[f], node, k);
    }
  }

  lemma {:induction false} ContainsItem(document: Json, node: Json, i: nat)
    requires Contains(document, node) && node.Arr? && i < |node.items|
    ensures Contains(document, node.items[i])
  {
    if document == node {
      assert Contains(document.items[i], node.items[i]);
    } else if document.Arr? {
      var j :| 0 <= j < |document.items| && Contains(document.items[j], node);
      ContainsItem(document.items[j], node, i);
    } else {
      var f :| f in document.fields && Contains(document.fields[f], node);
      ContainsItem(document.fields[f], node, i);
    }
  }

  function Split(s: string): (parts: seq<string>)
    ensures parts != []
  {
    if s == [] then [""]
    else
      var rest := Split(s[1..]);
      if s[0] == '/' then [""] + rest else [[s[0]] + rest[0]] + rest[1..]
  }

  function Walk(node: Json, tokens: seq<string>): Option<Json>
  {
    if tokens == [] then Some(node)
    else if node.Obj? && tokens[0] in node.fields then Walk(node.fields[tokens[0]], tokens[1..])
    else None
  }

  /** Where a reference under the prefix points to, as a JSON Pointer without escapes. */
  function PointerTarget(document: Json, ref: string): Option<Json>
    requires PREFIX <= ref
  {
    Walk(document, ["$defs"] + Split(ref[|PREFIX|..]))
  }

  /** Where the code goes. */
  function CodeTarget(document: Json, ref: string): Option<Json>
    requires PREFIX <= ref
  {
    var defs := DefinitionsOf(document);
    if defs.Some? && LastSegment(ref) in defs.value then Some(defs.value[LastSegment(ref)]) else None
  }

  predicate SingleSegment(ref: string)
    requires PREFIX <= ref
  {
    '/' !in ref[|PREFIX|..]
  }

  lemma {:induction false} SplitPlain(s: string)
    requires '/' !in s
    ensures Split(s) == [s]
  {
    if s != [] {
      SplitPlain(s[1..]);
      assert [s[0]] + s[1..] == s && [s[1..]][1..] == [];
    }
  }

  lemma {:induction false} SplitMany(s: string)
    requires '/' in s
    ensures |Split(s)| >= 2
  {
    if s[0] != '/' {
      SplitMany(s[1..]);
    }
  }

  lemma SegmentOf(ref: string)
    requires PREFIX <= ref && SingleSegment(ref)
    ensures LastSegment(ref) == ref[|PREFIX|..]
  {
    var r, rest := LastSegment(ref), ref[|PREFIX|..];
    assert ref[|PREFIX| - 1] == '/';
  }

  /** The code follows the pointer on every document exactly for references with a single
      segment after the prefix; any longer one goes elsewhere on some document. */
  lemma TargetsAgree(ref: string)
    requires PREFIX <= ref
    ensures SingleSegment(ref) <==>
      forall document :: DefinitionsOf(document).Some? ==> CodeTarget(document, ref) == PointerTarget(document, ref)
  {
    var rest := ref[|PREFIX|..];
    if SingleSegment(ref) {
      SegmentOf(ref);
      SplitPlain(rest);
      forall document | DefinitionsOf(document).Some?
        ensures CodeTarget(document, ref) == PointerTarget(document, ref)
      {
        SinglePointer(document, rest);
      }
    } else {
      SplitMany(rest);
      var document := Obj(map["$defs" := Obj(map[LastSegment(ref) := Obj(map[])])]);
      var tokens := Split(rest);
      assert CodeTarget(document, ref) == Some(Obj(map[]));
      assert (["$defs"] + tokens)[1..] == tokens;
      assert Walk(document, ["$defs"] + tokens) == Walk(document.fields["$defs"], tokens);
      assert Walk(Obj(map[]), tokens[1..]) == None;
      assert PointerTarget(document, ref) == None;
    }
  }

  lemma SinglePointer(document: Json, name: string)
    requires DefinitionsOf(document).Some?
    ensures Walk(document, ["$defs"] + [name]) ==
      if name in DefinitionsOf(document).value then Some(DefinitionsOf(document).value[name]) else None
  {
    var tokens := ["$defs"] + [name];
    assert tokens[0] == "$defs" && tokens[1..] == [name] && [name][1..] == [];
    if document.Obj? && "$defs" in document.fields {
      var defs := document.fields["$defs"];
      assert Walk(document, tokens) == Walk(defs, [name]);
      assert name in defs.fields ==> Walk(defs, [name]) == Walk(defs.fields[name], []);
    }
  }

  /** A field of an instance that a schema knows: a property, or a match of a pattern. */
  predicate Declared(schema: Json, field: string, matches: (string, string) -> bool)
  {
    schema.Obj?
    && (("properties" in schema.fields && schema.fields["properties"].Obj? && field in schema.fields["properties"].fields)
        || ("patternProperties" in schema.fields && schema.fields["patternProperties"].Obj?
            && exists p :: p in schema.fields["patternProperties"].fields && matches(p, field)))
  }

  /** What every JSON Schema validator does with the keywords involved: a reference accepts no
      more than its target, a union no more than its branches, `type` and
      `additionalProperties` restrict as they say. */
  ghost predicate Validator(document: Json, accepts: (Json, Json) -> bool, matches: (string, string) -> bool)
  {
    forall schema, x :: accepts(schema, x) && schema.Obj? ==> Obeyed(document, accepts, matches, schema, x)
  }

  ghost predicate Obeyed(document: Json, accepts: (Json, Json) -> bool, matches: (string, string) -> bool, schema: Json, x: Json)
    requires schema.Obj?
  {
    && (IsRef(schema) ==>
          var target := PointerTarget(document, schema.fields["$ref"].s);
          target.Some? && accepts(target.value, x))
    && (HasBranches(schema, "anyOf") ==> exists b :: b in schema.fields["anyOf"].items && accepts(b, x))
    && (HasBranches(schema, "oneOf") ==> exists b :: b in schema.fields["oneOf"].items && accepts(b, x))
    && (ClosedObject(schema) ==> x.Obj? && forall f :: f in x.fields ==> Declared(schema, f, matches))
  }

  ghost predicate SingleRefs(document: Json)
  {
    forall n :: Contains(document, n) && IsRef(n) ==> SingleSegment(n.fields["$ref"].s)
  }

  /** What an accepted instance owes to strictness: some closed object schema of the document
      accepts it, so it is an object all of whose fields that schema declares. */
  ghost predicate Guarded(document: Json, x: Json, accepts: (Json, Json) -> bool, matches: (string, string) -> bool)
  {
    x.Obj? && exists leaf ::
      Contains(document, leaf) && ClosedObject(leaf) && accepts(leaf, x)
      && forall f :: f in x.fields ==> Declared(leaf, f, matches)
  }

  /** Every instance that some validator accepts is guarded. */
  ghost predicate AlwaysGuarded(document: Json, matches: (string, string) -> bool)
  {
    forall accepts: (Json, Json) -> bool, x: Json ::
      Validator(document, accepts, matches) && accepts(document, x) ==> Guarded(document, x, accepts, matches)
  }

  /** Following pointers as a validator does, every way ends at an object without additional
      properties or at a reference to nothing. */
  ghost predicate Shut(document: Json, node: Json, depth: nat)
    decreases depth
  {
    && depth > 0 && node.Obj?
    && (|| ClosedObject(node)
        || (IsRef(node) &&
            (var target := PointerTarget(document, node.fields["$ref"].s);
             target.Some? ==> Shut(document, target.value, depth - 1)))
        || (HasBranches(node, "anyOf") && forall b :: b in node.fields["anyOf"].items ==> Shut(document, b, depth - 1))
        || (HasBranches(node, "oneOf") && forall b :: b in node.fields["oneOf"].items ==> Shut(document, b, depth - 1)))
  }

  ghost predicate Shuts(document: Json, node: Json)
  {
    exists depth: nat :: Shut(document, node, depth)
  }

  lemma {:induction false} ShutDeeper(document: Json, node: Json, depth: nat, more: nat)
    requires Shut(document, node, depth) && depth <= more
    ensures Shut(document, node, more)
    decreases depth
  {
    var less := depth - 1;
    forall n | Shut(document, n, less)
      ensures Shut(document, n, more - 1)
    {
      ShutDeeper(document, n, less, more - 1);
    }
    hide PointerTarget, ClosedObject;
  }

  lemma {:induction false} ShutTogether(document: Json, nodes: seq<Json>) returns (depth: nat)
    requires forall b :: b in nodes ==> Shuts(document, b)
    ensures forall b :: b in nodes ==> Shut(document, b, depth)
  {
    if nodes == [] {
      depth := 0;
    } else {
      var rest := ShutTogether(document, nodes[1..]);
      assert nodes[0] in nodes;
      var first: nat :| Shut(document, nodes[0], first);
      depth := if first < rest then rest else first;
      hide Shut;
      forall b | b in nodes
        ensures Shut(document, b, depth)
      {
        if b in nodes[1..] {
          ShutDeeper(document, b, rest, depth);
        } else {
          ShutDeeper(document, b, first, depth);
        }
      }
    }
  }

  lemma {:induction false} WalkContained(document: Json, node: Json, tokens: seq<string>)
    requires Contains(document, node) && Walk(node, tokens).Some?
    ensures Contains(document, Walk(node, tokens).value)
    decreases |tokens|
  {
    if tokens != [] {
      ContainsField(document, node, tokens[0]);
      WalkContained(document, node.fields[tokens[0]], tokens[1..]);
    }
  }

  lemma {:induction false} ShutGuards(document: Json, node: Json, depth: nat, x: Json,
                                      accepts: (Json, Json) -> bool, matches: (string, string) -> bool)
    requires Validator(document, accepts, matches) && Contains(document, node)
    requires Shut(document, node, depth) && accepts(node, x)
    ensures Guarded(document, x, accepts, matches)
    decreases depth
  {
    hide Contains;
    if !ClosedObject(node) {
      if IsRef(node) && (PointerTarget(document, node.fields["$ref"].s).Some? ==>
                           Shut(document, PointerTarget(document, node.fields["$ref"].s).value, depth - 1)) {
        var ref := node.fields["$ref"].s;
        assert Obeyed(document, accepts, matches, node, x);
        ContainsSelf(document);
        WalkContained(document, document, ["$defs"] + Split(ref[|PREFIX|..]));
        ShutGuards(document, PointerTarget(document, ref).value, depth - 1, x, accepts, matches);
      } else {
        var keyword := if HasBranches(node, "anyOf") && forall b :: b in node.fields["anyOf"].items ==> Shut(document, b, depth - 1)
                       then "anyOf" else "oneOf";
        var branches := node.fields[keyword];
        var b :| b in branches.items && accepts(b, x);
        var i :| 0 <= i < |branches.items| && branches.items[i] == b;
        ContainsField(document, node, keyword);
        ContainsItem(document, branches, i);
        ShutGuards(document, b, depth - 1, x, accepts, matches);
      }
    }
  }

  lemma ContainsSelf(document: Json)
    ensures Contains(document, document)
  {
  }

  /** What a node that is not shut leaves open. */
  lemma OpenStep(document: Json, node: Json)
    requires !Shuts(document, node) && node.Obj?
    ensures !ClosedObject(node)
    ensures IsRef(node) ==>
      var target := PointerTarget(document, node.fields["$ref"].s);
      target.Some? && !Shuts(document, target.value)
    ensures HasBranches(node, "anyOf") ==> exists b :: b in node.fields["anyOf"].items && !Shuts(document, b)
    ensures HasBranches(node, "oneOf") ==> exists b :: b in node.fields["oneOf"].items && !Shuts(document, b)
  {
    assert !Shut(document, node, 1);
    hide ClosedObject, PointerTarget;
    if IsRef(node) {
      var target := PointerTarget(document, node.fields["$ref"].s);
      if target.Some? && Shuts(document, target.value) {
        var depth: nat :| Shut(document, target.value, depth);
        ShutByReference(document, node, depth);
      }
    }
    OpenBranch(document, node, "anyOf");
    OpenBranch(document, node, "oneOf");
  }

  lemma ShutByReference(document: Json, node: Json, depth: nat)
    requires IsRef(node) && PointerTarget(document, node.fields["$ref"].s).Some?
    requires Shut(document, PointerTarget(document, node.fields["$ref"].s).value, depth)
    ensures Shuts(document, node)
  {
    assert Shut(document, node, depth + 1);
  }

  lemma OpenBranch(document: Json, node: Json, keyword: string)
    requires !Shuts(document, node) && node.Obj? && (keyword == "anyOf" || keyword == "oneOf")
    ensures HasBranches(node, keyword) ==> exists b :: b in node.fields[keyword].items && !Shuts(document, b)
  {
    if HasBranches(node, keyword) && forall b :: b in node.fields[keyword].items ==> Shuts(document, b) {
      var depth := ShutTogether(document, node.fields[keyword].items);
      ShutByBranches(document, node, keyword, depth);
    }
  }

  lemma ShutByBranches(document: Json, node: Json, keyword: string, depth: nat)
    requires HasBranches(node, keyword) && (keyword == "anyOf" || keyword == "oneOf")
    requires forall b :: b in node.fields[keyword].items ==> Shut(document, b, depth)
    ensures Shuts(document, node)
  {
    assert Shut(document, node, depth + 1);
  }

  /** The validator that accepts one string wherever nothing shuts it out. */
  lemma OpenValidator(document: Json, accepts: (Json, Json) -> bool, matches: (string, string) -> bool)
    requires forall s, x :: accepts(s, x) <==> x == Str("x") && !Shuts(document, s)
    ensures Validator(document, accepts, matches)
  {
    hide Shuts, PointerTarget, ClosedObject;
    forall schema: Json, x | accepts(schema, x) && schema.Obj?
      ensures Obeyed(document, accepts, matches, schema, x)
    {
      OpenStep(document, schema);
    }
  }

  /** The exact condition, for one document: every validator guards it if and only if its
      pointers shut it. */
  lemma GuardedExactly(document: Json, matches: (string, string) -> bool)
    ensures AlwaysGuarded(document, matches) <==> Shuts(document, document)
  {
    if Shuts(document, document) {
      var depth: nat :| Shut(document, document, depth);
      forall accepts: (Json, Json) -> bool, x | Validator(document, accepts, matches) && accepts(document, x)
        ensures Guarded(document, x, accepts, matches)
      {
        ShutGuards(document, document, depth, x, accepts, matches);
      }
    } else {
      var accepts: (Json, Json) -> bool := (s, x) => x == Str("x") && !Shuts(document, s);
      OpenValidator(document, accepts, matches);
      assert accepts(document, Str("x")) && !Guarded(document, Str("x"), accepts, matches);
    }
  }

  /** The references that the decision follows, up to a depth, read the same by their last
      segment and as pointers. */
  ghost predicate AgreesWithin(document: Json, node: Json, depth: nat)
    decreases depth
  {
    depth > 0 && node.Obj? ==>
      if IsRef(node) then
        var target := CodeTarget(document, node.fields["$ref"].s);
        && target == PointerTarget(document, node.fields["$ref"].s)
        && (target.Some? ==> AgreesWithin(document, target.value, depth - 1))
      else
        Union(node).Some? ==> forall b :: b in Union(node).value.items ==> AgreesWithin(document, b, depth - 1)
  }

  ghost predicate Agrees(document: Json)
  {
    forall depth: nat :: AgreesWithin(document, document, depth)
  }

  lemma {:induction false} ClosedShut(document: Json, node: Json, depth: nat)
    requires ClosedWithin(Known(DefinitionsOf(document)), node, depth) && AgreesWithin(document, node, depth)
    ensures Shut(document, node, depth)
    decreases depth
  {
    var defs := Known(DefinitionsOf(document));
    hide PointerTarget;
    if IsRef(node) {
      assert CodeTarget(document, node.fields["$ref"].s) == Some(defs[Name(node)]);
      ClosedShut(document, defs[Name(node)], depth - 1);
    } else if Union(node).Some? {
      forall b | b in Union(node).value.items
        ensures Shut(document, b, depth - 1)
      {
        ClosedShut(document, b, depth - 1);
      }
    }
  }

  lemma {:induction false} SingleAgrees(document: Json, node: Json, depth: nat)
    requires SingleRefs(document) && Contains(document, node)
    ensures AgreesWithin(document, node, depth)
    decreases depth
  {
    if depth > 0 && node.Obj? {
      if IsRef(node) {
        var ref := node.fields["$ref"].s;
        SingleTarget(document, ref);
        if CodeTarget(document, ref).Some? {
          hide Contains, Walk;
          ContainsSelf(document);
          WalkContained(document, document, ["$defs"] + Split(ref[|PREFIX|..]));
          SingleAgrees(document, CodeTarget(document, ref).value, depth - 1);
        }
      } else if Union(node).Some? {
        hide Contains;
        var keyword := if HasBranches(node, "anyOf") then "anyOf" else "oneOf";
        var branches := node.fields[keyword];
        ContainsField(document, node, keyword);
        forall i | 0 <= i < |branches.items|
          ensures AgreesWithin(document, branches.items[i], depth - 1)
        {
          ContainsItem(document, branches, i);
          SingleAgrees(document, branches.items[i], depth - 1);
        }
      }
    }
  }

  lemma SingleTarget(document: Json, ref: string)
    requires PREFIX <= ref && SingleSegment(ref)
    ensures CodeTarget(document, ref) == PointerTarget(document, ref)
  {
    var rest := ref[|PREFIX|..];
    SegmentOf(ref);
    SplitPlain(rest);
    if DefinitionsOf(document).Some? {
      SinglePointer(document, rest);
    } else {
      var tokens := ["$defs"] + [rest];
      assert tokens[0] == "$defs" && tokens[1..] == [rest];
      assert Walk(document, tokens) == Walk(document.fields["$defs"], [rest]);
    }
  }

  /** A strict root rejects unknown fields under every validator, provided each reference the
      decision follows reads the same as a pointer; references with a single segment do. */
  lemma StrictMeansGuarded(document: Json, matches: (string, string) -> bool)
    requires RootIsStrict(document) == Answer(true) && (Agrees(document) || SingleRefs(document))
    ensures AlwaysGuarded(document, matches)
  {
    StrictExactly(document);
    var depth: nat :| ClosedWithin(Known(DefinitionsOf(document)), document, depth);
    if SingleRefs(document) {
      ContainsSelf(document);
      SingleAgrees(document, document, depth);
    }
    ClosedShut(document, document, depth);
    GuardedExactly(document, matches);
  }

  lemma NestedPointer(document: Json, text: Json)
    requires document.Obj? && "$defs" in document.fields
    requires document.fields["$defs"].Obj? && "a" in document.fields["$defs"].fields
    requires document.fields["$defs"].fields["a"] == Obj(map["b" := text])
    ensures PointerTarget(document, "#/$defs/a/b") == Some(text) && LastSegment("#/$defs/a/b") == "b"
  {
    var ref := "#/$defs/a/b";
    assert ref[..10][9] == '/' && LastSegment(ref[..10]) == [];
    assert ref[|PREFIX|..] == "a/b";
    var rest := "a/b";
    SplitPlain("b");
    assert rest[1..] == "/b" && "/b"[1..] == "b";
    assert Split("/b") == [""] + ["b"];
    assert Split(rest) == [['a'] + ""] + ["b"];
    assert ['a'] + "" == "a";
    var tokens := ["$defs"] + ["a", "b"];
    assert tokens == ["$defs"] + Split(rest);
    assert tokens[1..] == ["a", "b"] && ["a", "b"][1..] == ["b"] && ["b"][1..] == [];
    var defs := document.fields["$defs"];
    assert Walk(document, tokens) == Walk(defs, ["a", "b"]);
    assert Walk(defs, ["a", "b"]) == Walk(defs.fields["a"], ["b"]);
    assert Walk(defs.fields["a"], ["b"]) == Walk(text, []);
  }

  lemma NestedValidator(document: Json, text: Json, accepts: (Json, Json) -> bool, matches: (string, string) -> bool)
    requires PointerTarget(document, "#/$defs/a/b") == Some(text) && text == TextSchema()
    requires document.Obj? && document.fields.Keys == {"$ref", "$defs"} && document.fields["$ref"] == Str("#/$defs/a/b")
    requires forall s, x :: accepts(s, x) <==> x == Str("x") && (s == document || s == text)
    ensures Validator(document, accepts, matches)
  {
    hide PointerTarget;
    assert "string"[0] != "object"[0];
    assert !ClosedObject(document) && !ClosedObject(text);
    assert IsRef(document) && !IsRef(text);
    assert forall k :: (k == "anyOf" || k == "oneOf") ==> !HasBranches(document, k) && !HasBranches(text, k);
    hide ClosedObject, HasBranches;
  }

  function TextSchema(): Json
  {
    Obj(map["type" := Str("string")])
  }

  function ClosedSchema(): Json
  {
    Obj(map["type" := Str("object"), "additionalProperties" := Bool(false)])
  }

  function NestedDocument(): Json
  {
    Obj(map["$ref" := Str("#/$defs/a/b"), "$defs" := Obj(map["a" := Obj(map["b" := TextSchema()]), "b" := ClosedSchema()])])
  }

  lemma NestedShape()
    ensures var document := NestedDocument();
      && document.Obj? && document.fields.Keys == {"$ref", "$defs"} && document.fields["$ref"] == Str("#/$defs/a/b")
      && document.fields["$defs"].Obj? && "a" in document.fields["$defs"].fields && "b" in document.fields["$defs"].fields
      && document.fields["$defs"].fields["a"] == Obj(map["b" := TextSchema()])
      && document.fields["$defs"].fields["b"] == ClosedSchema()
    ensures ClosedObject(ClosedSchema()) && ClosedSchema().fields.Keys == {"type", "additionalProperties"}
  {
    hide TextSchema;
  }

  /** A reference with two segments: the code looks at the wrong definition and answers
      strict, while a validator accepts a plain string. */
  lemma NestedReferenceMisread(matches: (string, string) -> bool)
    ensures RootIsStrict(NestedDocument()) == Answer(true)
    ensures exists accepts :: Validator(NestedDocument(), accepts, matches) && accepts(NestedDocument(), Str("x"))
  {
    NestedShape();
    hide *;
    var document, text := NestedDocument(), TextSchema();
    NestedPointer(document, text);
    var accepts: (Json, Json) -> bool := (s, x) => x == Str("x") && (s == document || s == text);
    NestedValidator(document, text, accepts, matches);
    assert accepts(document, Str("x"));
    MisreadStrict(document, ClosedSchema());
  }

  lemma MisreadStrict(document: Json, closed: Json)
    requires document.Obj? && document.fields.Keys == {"$ref", "$defs"} && document.fields["$ref"] == Str("#/$defs/a/b")
    requires document.fields["$defs"].Obj? && "b" in document.fields["$defs"].fields
    requires document.fields["$defs"].fields["b"] == closed && LastSegment("#/$defs/a/b") == "b"
    requires ClosedObject(closed) && closed.fields.Keys == {"type", "additionalProperties"}
    ensures RootIsStrict(document) == Answer(true)
  {
    var defs := DefinitionsOf(document);
    assert PREFIX <= "#/$defs/a/b";
    assert !IsRef(closed) && Union(closed).None?;
    assert Strict(defs, closed, {} + {"b"}) == Answer(true);
  }
}
