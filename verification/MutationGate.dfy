/** The mutation gate's view of a syntax tree: which mutations it lists, which of them it
    selects, and the stateful transformer that applies one. */
module MutationGate {
  import opened Finite
  import opened Ledger

  datatype Pos = Pos(line: int, col: int)

  datatype CmpOp = Eq | NotEq | Lt | LtE | Gt | GtE | In | NotIn | Is | IsNot

  /** An `If` has its test first, then `body` statements, then the else part; a `Return` has
      its value, if any, as only child. */
  datatype Form =
    | Compare(ops: seq<CmpOp>)
    | BoolOp(conjunction: bool)
    | If(body: nat)
    | Return
    | Raise
    | BoolConstant(value: bool)
    | OtherConstant(truthy: bool, text: string)
    | Other(text: string)

  datatype Node = Node(form: Form, pos: Pos, kids: seq<Node>)

  datatype Kind = CompareKind | BoolOpKind | IfKind | ReturnKind | OtherKind

  datatype Family =
    | BooleanNegation | ComparisonBoundary | GuardRaiseRemoval | MembershipEnum
    | SuccessFailureLiteral | ValidationEvidenceOmission

  datatype Mutation = Mutation(family: Family, pos: Pos, kind: Kind, detail: string)

  function KindOf(form: Form): Kind
  {
    match form
    case Compare(_) => CompareKind
    case BoolOp(_) => BoolOpKind
    case If(_) => IfKind
    case Return => ReturnKind
    case _ => OtherKind
  }

  function Flip(op: CmpOp): (r: CmpOp)
    ensures r != op
  {
    match op
    case Eq => NotEq case NotEq => Eq
    case Lt => LtE case LtE => Lt
    case Gt => GtE case GtE => Gt
    case In => NotIn case NotIn => In
    case Is => IsNot case IsNot => Is
  }

  // ---------------------------------------------------------------- one node

  predicate Matches(n: Node, m: Mutation)
  {
    m.kind != OtherKind && KindOf(n.form) == m.kind && n.pos == m.pos
  }

  function Value(n: Node): Option<Form>
  {
    if n.kids != [] && (n.kids[0].form.BoolConstant? || n.kids[0].form.OtherConstant?) then Some(n.kids[0].form) else None
  }

  /** The transformer would raise otherwise: a comparison without an operator, an `If` without
      a test, a `Return` whose value is not a constant. */
  predicate Rewritable(n: Node)
  {
    match n.form
    case Compare(ops) => ops != []
    case BoolOp(_) => true
    case If(_) => n.kids != []
    case Return => Value(n).Some?
    case _ => false
  }

  function Truthy(constant: Form): bool
  {
    if constant.BoolConstant? then constant.value else if constant.OtherConstant? then constant.truthy else true
  }

  /** New constants get the location of the node they hang under. */
  function Rewrite(n: Node): Node
    requires Rewritable(n)
  {
    match n.form
    case Compare(ops) => n.(form := Compare(ops[0 := Flip(ops[0])]))
    case BoolOp(conjunction) => n.(form := BoolOp(!conjunction))
    case If(_) => n.(kids := n.kids[0 := Node(BoolConstant(false), n.pos, [])])
    case Return => n.(kids := n.kids[0 := Node(BoolConstant(!Truthy(Value(n).value)), n.pos, [])])
  }

  // ---------------------------------------------------------------- paths

  type Path = seq<nat>

  predicate ValidPath(n: Node, p: Path)
  {
    p == [] || (p[0] < |n.kids| && ValidPath(n.kids[p[0]], p[1..]))
  }

  function At(n: Node, p: Path): Node
    requires ValidPath(n, p)
  {
    if p == [] then n else At(n.kids[p[0]], p[1..])
  }

  function ReplaceAt(n: Node, p: Path, new': Node): Node
    requires ValidPath(n, p)
  {
    if p == [] then new' else n.(kids := n.kids[p[0] := ReplaceAt(n.kids[p[0]], p[1..], new')])
  }

  /** q is visited before p: below it, or in an earlier branch. */
  predicate PostBefore(q: Path, p: Path)
  {
    if q == [] then false
    else if p == [] then true
    else q[0] < p[0] || (q[0] == p[0] && PostBefore(q[1..], p[1..]))
  }

  function FirstMatch(n: Node, m: Mutation): Option<Path>
    decreases n, |n.kids| + 1
  {
    match FirstBelow(n, m, 0)
    case Some(p) => Some(p)
    case None => if Matches(n, m) then Some([]) else None
  }

  function FirstBelow(n: Node, m: Mutation, from: nat): Option<Path>
    requires from <= |n.kids|
    decreases n, |n.kids| - from
  {
    if from == |n.kids| then None
    else match FirstMatch(n.kids[from], m)
      case Some(p) => Some([from] + p)
      case None => FirstBelow(n, m, from + 1)
  }

  /** The name says what it is: a match, and no earlier node in visiting order matches. */
  lemma {:induction false} FirstIsFirst(n: Node, m: Mutation)
    ensures FirstMatch(n, m).None? ==> forall q :: ValidPath(n, q) ==> !Matches(At(n, q), m)
    ensures FirstMatch(n, m).Some? ==>
      var p := FirstMatch(n, m).value;
      && ValidPath(n, p) && Matches(At(n, p), m)
      && forall q :: ValidPath(n, q) && PostBefore(q, p) ==> !Matches(At(n, q), m)
    decreases n, |n.kids| + 1
  {
    BelowIsFirst(n, m, 0);
  }

  lemma {:induction false} BelowIsFirst(n: Node, m: Mutation, from: nat)
    requires from <= |n.kids|
    ensures FirstBelow(n, m, from).None? ==>
      forall q :: ValidPath(n, q) && q != [] && q[0] >= from ==> !Matches(At(n, q), m)
    ensures FirstBelow(n, m, from).Some? ==>
      var p := FirstBelow(n, m, from).value;
      && ValidPath(n, p) && p != [] && p[0] >= from && Matches(At(n, p), m)
      && forall q :: ValidPath(n, q) && PostBefore(q, p) && q[0] >= from ==> !Matches(At(n, q), m)
    decreases n, |n.kids| - from
  {
    if from < |n.kids| {
      FirstIsFirst(n.kids[from], m);
      BelowIsFirst(n, m, from + 1);
    }
  }

  // ---------------------------------------------------------------- the transformer

  class Transformer {
    const mutation: Mutation
    var applied: nat

    constructor (mutation: Mutation)
      ensures this.mutation == mutation && applied == 0
    {
      this.mutation := mutation;
      applied := 0;
    }

    /** The whole visit of a subtree: the first match in visiting order is rewritten, all else
        stays; once a mutation is applied nothing changes any more. */
    method Visit(n: Node) returns (r: Reply<Node>)
      modifies this`applied
      ensures old(applied) != 0 ==> r == Ok(n) && applied == old(applied)
      ensures old(applied) == 0 && FirstMatch(n, mutation).None? ==> r == Ok(n) && applied == 0
      ensures old(applied) == 0 && FirstMatch(n, mutation).Some? ==>
        var p := FirstMatch(n, mutation).value;
        && ValidPath(n, p)
        && (r.Ok? <==> Rewritable(At(n, p)))
        && (r.Ok? ==> r.value == ReplaceAt(n, p, Rewrite(At(n, p))) && applied == 1)
      decreases n
    {
      FirstIsFirst(n, mutation);
      var kids := [];
      var i := 0;
      while i < |n.kids|
        invariant 0 <= i <= |n.kids| && |kids| == i
        invariant old(applied) != 0 ==> kids == n.kids[..i] && applied == old(applied)
        invariant old(applied) == 0 && applied == 0 ==>
          kids == n.kids[..i] && FirstBelow(n, mutation, 0) == FirstBelow(n, mutation, i)
        invariant old(applied) == 0 && applied != 0 ==> applied == 1 && Below(n, mutation, kids, i)
      {
        ghost var before := applied;
        var kid := Visit(n.kids[i]);
        if kid.Raised? {
          return Raised;
        }
        kids := kids + [kid.value];
        i := i + 1;
      }
      assert n.kids[..i] == n.kids;
      var node := n.(kids := kids);
      if applied == 0 && Matches(node, mutation) {
        if !Rewritable(node) {
          return Raised;
        }
        node := Rewrite(node);
        applied := applied + 1;
      }
      r := Ok(node);
    }
  }

  /** The match lies among the first `i` children, and these are rewritten accordingly. */
  ghost predicate Below(n: Node, m: Mutation, kids: seq<Node>, i: nat)
  {
    && i <= |n.kids| && |kids| == i
    && FirstBelow(n, m, 0).Some?
    && var p := FirstBelow(n, m, 0).value;
       && p != [] && p[0] < i && ValidPath(n, p) && Rewritable(At(n, p))
       && kids == n.kids[..i][p[0] := ReplaceAt(n.kids[p[0]], p[1..], Rewrite(At(n, p)))]
  }

  // ---------------------------------------------------------------- what a mutant means

  /** A comparison of two numbers, given what membership and identity mean. */
  predicate Holds(op: CmpOp, x: int, y: int, member: (int, int) -> bool, identical: (int, int) -> bool)
  {
    match op
    case Eq => x == y case NotEq => x != y
    case Lt => x < y case LtE => x <= y
    case Gt => x > y case GtE => x >= y
    case In => member(x, y) case NotIn => !member(x, y)
    case Is => identical(x, y) case IsNot => !identical(x, y)
  }

  /** An ordering differs from the original exactly at equality; any other comparison is negated. */
  ghost predicate Turned(op: CmpOp, other: CmpOp)
  {
    forall x, y, member, identical ::
      var before, after := Holds(op, x, y, member, identical), Holds(other, x, y, member, identical);
      (before != after) <==> (op in {Lt, LtE, Gt, GtE} ==> x == y)
  }

  predicate TruthOf(constant: Form)
  {
    match constant
    case BoolConstant(value) => value
    case OtherConstant(truthy, _) => truthy
    case _ => true
  }

  /** What the mutation does to its node, kind by kind. */
  ghost predicate Rewritten(n: Node, r: Node)
  {
    && r.pos == n.pos && |r.kids| == |n.kids|
    && match n.form
       case Compare(ops) =>
         r.kids == n.kids && ops != [] && r.form.Compare? && |r.form.ops| == |ops| && r.form.ops[1..] == ops[1..]
         && Turned(ops[0], r.form.ops[0])
       case BoolOp(conjunction) => r.kids == n.kids && r.form == BoolOp(!conjunction)
       case If(_) =>
         r.form == n.form && n.kids != [] && r.kids[1..] == n.kids[1..] && r.kids[0] == Node(BoolConstant(false), n.pos, [])
       case Return =>
         r.form == n.form && n.kids != [] && r.kids[1..] == n.kids[1..]
         && r.kids[0] == Node(BoolConstant(!TruthOf(n.kids[0].form)), n.pos, [])
       case _ => false
  }

  lemma FlipTurns(op: CmpOp)
    ensures Turned(op, Flip(op))
  {
  }

  lemma RewriteMeans(n: Node)
    requires Rewritable(n)
    ensures Rewritten(n, Rewrite(n))
  {
    if n.form.Compare? {
      FlipTurns(n.form.ops[0]);
      hide Turned, Flip;
    }
  }

  /** The mutant differs from the tree at the first match, by what its kind of mutation means. */
  lemma MutantMeans(tree: Node, m: Mutation)
    ensures Mutant(tree, m).Some? ==>
      var p, mutant := FirstMatch(tree, m), Mutant(tree, m).value;
      && p.Some? && ValidPath(tree, p.value) && ValidPath(mutant, p.value)
      && Matches(At(tree, p.value), m) && Rewritten(At(tree, p.value), At(mutant, p.value))
  {
    FirstIsFirst(tree, m);
    if Mutant(tree, m).Some? {
      var p := FirstMatch(tree, m).value;
      RewriteMeans(At(tree, p));
      ReplaceThere(tree, p, Rewrite(At(tree, p)));
      hide Rewritten, Rewrite;
    }
  }

  /** One mutant: exactly one application, or an exception. */
  method Mutated(tree: Node, m: Mutation) returns (r: Reply<Node>)
    ensures r.Ok? <==> FirstMatch(tree, m).Some? && ValidPath(tree, FirstMatch(tree, m).value)
                       && Rewritable(At(tree, FirstMatch(tree, m).value))
    ensures r.Ok? ==> r.value == ReplaceAt(tree, FirstMatch(tree, m).value, Rewrite(At(tree, FirstMatch(tree, m).value)))
    ensures r.Ok? ==> ValidPath(r.value, FirstMatch(tree, m).value)
                      && Rewritten(At(tree, FirstMatch(tree, m).value), At(r.value, FirstMatch(tree, m).value))
  {
    MutantMeans(tree, m);
    hide Rewritten;
    FirstIsFirst(tree, m);
    var transformer := new Transformer(m);
    r := transformer.Visit(tree);
    if r.Ok? && transformer.applied != 1 {
      return Raised;
    }
  }

  // ---------------------------------------------------------------- what a mutant leaves alone

  predicate IsPrefix(p: Path, q: Path)
  {
    |p| <= |q| && q[..|p|] == p
  }

  /** Away from the path nothing changes; on the way to it only the child it passes through. */
  lemma {:induction false} ReplaceElsewhere(n: Node, p: Path, new': Node, q: Path)
    requires ValidPath(n, p) && !IsPrefix(p, q)
    ensures ValidPath(ReplaceAt(n, p, new'), q) <==> ValidPath(n, q)
    ensures ValidPath(n, q) && !IsPrefix(q, p) ==> At(ReplaceAt(n, p, new'), q) == At(n, q)
    ensures ValidPath(n, q) ==>
      var a, b := At(n, q), At(ReplaceAt(n, p, new'), q);
      a.form == b.form && a.pos == b.pos && |a.kids| == |b.kids|
  {
    if q != [] && q[0] == p[0] && q[0] < |n.kids| {
      PrefixTail(p, q);
      PrefixTail(q, p);
      ReplaceElsewhere(n.kids[p[0]], p[1..], new', q[1..]);
    }
  }

  lemma PrefixTail(p: Path, q: Path)
    requires p != [] && q != [] && p[0] == q[0]
    ensures IsPrefix(p, q) <==> IsPrefix(p[1..], q[1..])
  {
    if |p| <= |q| {
      assert q[..|p|] == [q[0]] + q[1..][..|p| - 1];
      assert p == [p[0]] + p[1..];
    }
  }

  lemma {:induction false} ReplaceThere(n: Node, p: Path, new': Node)
    requires ValidPath(n, p)
    ensures ValidPath(ReplaceAt(n, p, new'), p) && At(ReplaceAt(n, p, new'), p) == new'
  {
    if p != [] {
      ReplaceThere(n.kids[p[0]], p[1..], new');
    }
  }

  lemma {:induction false} ReplaceTwice(n: Node, p: Path, a: Node, b: Node)
    requires ValidPath(n, p)
    ensures ValidPath(ReplaceAt(n, p, a), p)
    ensures ReplaceAt(ReplaceAt(n, p, a), p, b) == ReplaceAt(n, p, b)
    ensures ReplaceAt(n, p, At(n, p)) == n
  {
    if p != [] {
      ReplaceTwice(n.kids[p[0]], p[1..], a, b);
    }
  }

  // ---------------------------------------------------------------- applying a mutation twice

  /** A rewritten node still matches, and nothing below it starts to. */
  lemma RewriteMatches(n: Node, m: Mutation)
    requires Rewritable(n) && FirstMatch(n, m) == Some([])
    ensures FirstMatch(Rewrite(n), m) == Some([])
  {
    BelowIsFirst(n, m, 0);
    NoneBelow(n, m, 0);
    var w := Rewrite(n);
    forall j | 0 <= j < |w.kids|
      ensures FirstMatch(w.kids[j], m).None?
    {
      if w.kids[j] != n.kids[j] {
        assert FirstBelow(w.kids[j], m, 0).None?;
      }
    }
    NoneBelow'(w, m, 0);
  }

  lemma {:induction false} NoneBelow(n: Node, m: Mutation, from: nat)
    requires from <= |n.kids| && FirstBelow(n, m, from).None?
    ensures forall j :: from <= j < |n.kids| ==> FirstMatch(n.kids[j], m).None?
    decreases |n.kids| - from
  {
    if from < |n.kids| {
      NoneBelow(n, m, from + 1);
    }
  }

  lemma {:induction false} NoneBelow'(n: Node, m: Mutation, from: nat)
    requires from <= |n.kids| && forall j :: from <= j < |n.kids| ==> FirstMatch(n.kids[j], m).None?
    ensures FirstBelow(n, m, from).None?
    decreases |n.kids| - from
  {
    if from < |n.kids| {
      NoneBelow'(n, m, from + 1);
    }
  }

  /** Replacing the first match by a node that is itself a first match keeps the path. */
  lemma {:induction false} FirstStays(n: Node, m: Mutation, p: Path, new': Node)
    requires FirstMatch(n, m) == Some(p) && ValidPath(n, p) && FirstMatch(new', m) == Some([])
    ensures FirstMatch(ReplaceAt(n, p, new'), m) == Some(p)
    decreases n, |n.kids| + 1
  {
    if p != [] {
      BelowStays(n, m, p, new', 0);
    }
  }

  lemma {:induction false} BelowStays(n: Node, m: Mutation, p: Path, new': Node, from: nat)
    requires from <= |n.kids| && FirstBelow(n, m, from) == Some(p) && p != [] && ValidPath(n, p)
    requires FirstMatch(new', m) == Some([])
    ensures FirstBelow(ReplaceAt(n, p, new'), m, from) == Some(p)
    decreases n, |n.kids| - from
  {
    BelowIsFirst(n, m, from);
    if FirstMatch(n.kids[from], m).Some? {
      assert p[0] == from && p[1..] == FirstMatch(n.kids[from], m).value;
      FirstStays(n.kids[from], m, p[1..], new');
    } else {
      BelowIsFirst(n, m, from + 1);
      BelowStays(n, m, p, new', from + 1);
    }
  }

  function Mutant(tree: Node, m: Mutation): Option<Node>
  {
    FirstIsFirst(tree, m);
    match FirstMatch(tree, m)
    case Some(p) => if Rewritable(At(tree, p)) then Some(ReplaceAt(tree, p, Rewrite(At(tree, p)))) else None
    case None => None
  }

  lemma RewriteAgain(n: Node)
    requires Rewritable(n)
    ensures Rewritable(Rewrite(n))
    ensures n.form.Compare? || n.form.BoolOp? ==> Rewrite(Rewrite(n)) == n
    ensures n.form.Return? ==> Rewrite(Rewrite(n)) == n.(kids := n.kids[0 := Node(BoolConstant(Truthy(Value(n).value)), n.pos, [])])
  {
  }

  /** Applying the same mutation again rewrites the same node again. */
  lemma MutantTwice(tree: Node, m: Mutation)
    requires Mutant(tree, m).Some?
    ensures var p := FirstMatch(tree, m).value;
      && ValidPath(tree, p) && Rewritable(At(tree, p)) && Rewritable(Rewrite(At(tree, p)))
      && Mutant(Mutant(tree, m).value, m) == Some(ReplaceAt(tree, p, Rewrite(Rewrite(At(tree, p)))))
  {
    FirstIsFirst(tree, m);
    var p := FirstMatch(tree, m).value;
    var n := At(tree, p);
    RewriteAgain(n);
    FirstAtPath(tree, m, p);
    RewriteMatches(n, m);
    FirstStays(tree, m, p, Rewrite(n));
    ReplaceThere(tree, p, Rewrite(n));
    ReplaceTwice(tree, p, Rewrite(n), Rewrite(Rewrite(n)));
  }

  /** The first match of a tree is the first match of its own subtree. */
  lemma {:induction false} FirstAtPath(n: Node, m: Mutation, p: Path)
    requires ValidPath(n, p) && FirstMatch(n, m) == Some(p)
    ensures FirstMatch(At(n, p), m) == Some([])
    decreases n, |n.kids| + 1
  {
    if p != [] {
      BelowAtPath(n, m, p, 0);
    }
  }

  lemma {:induction false} BelowAtPath(n: Node, m: Mutation, p: Path, from: nat)
    requires from <= |n.kids| && ValidPath(n, p) && p != [] && FirstBelow(n, m, from) == Some(p)
    ensures FirstMatch(At(n, p), m) == Some([])
    decreases n, |n.kids| - from
  {
    if FirstMatch(n.kids[from], m).Some? {
      assert p[0] == from && p[1..] == FirstMatch(n.kids[from], m).value;
      FirstAtPath(n.kids[from], m, p[1..]);
    } else {
      BelowAtPath(n, m, p, from + 1);
    }
  }

  /** Comparison, membership and boolean mutations undo themselves. */
  lemma FlipTwiceRestores(tree: Node, m: Mutation)
    requires Mutant(tree, m).Some? && (m.kind == CompareKind || m.kind == BoolOpKind)
    ensures Mutant(Mutant(tree, m).value, m) == Some(tree)
  {
    MutantTwice(tree, m);
    FirstIsFirst(tree, m);
    var p := FirstMatch(tree, m).value;
    RewriteAgain(At(tree, p));
    ReplaceTwice(tree, p, At(tree, p), At(tree, p));
  }

  /** Equal apart from locations, which no source text shows. */
  predicate SameText(a: Node, b: Node)
  {
    a.form == b.form && |a.kids| == |b.kids| && forall i :: 0 <= i < |a.kids| ==> SameText(a.kids[i], b.kids[i])
  }

  lemma {:induction false} SameTextSelf(a: Node)
    ensures SameText(a, a)
  {
    forall i | 0 <= i < |a.kids|
      ensures SameText(a.kids[i], a.kids[i])
    {
      SameTextSelf(a.kids[i]);
    }
  }

  lemma {:induction false} SameTextReplace(n: Node, p: Path, new': Node)
    requires ValidPath(n, p)
    ensures SameText(ReplaceAt(n, p, new'), n) <==> SameText(new', At(n, p))
  {
    if p != [] {
      SameTextReplace(n.kids[p[0]], p[1..], new');
      forall i | 0 <= i < |n.kids|
        ensures SameText(n.kids[i], n.kids[i])
      {
        SameTextSelf(n.kids[i]);
      }
    }
  }

  /** A literal mutation undoes itself in the text exactly when the value returned was a
      Boolean; any other constant comes back as its truth value. */
  lemma LiteralTwiceRestores(tree: Node, m: Mutation)
    requires Mutant(tree, m).Some? && m.kind == ReturnKind
    ensures Mutant(Mutant(tree, m).value, m).Some? && ValidPath(tree, FirstMatch(tree, m).value)
    ensures Value(At(tree, FirstMatch(tree, m).value)).Some?
    ensures |At(tree, FirstMatch(tree, m).value).kids| == 1 && At(tree, FirstMatch(tree, m).value).kids[0].kids == [] ==>
      (SameText(Mutant(Mutant(tree, m).value, m).value, tree)
       <==> Value(At(tree, FirstMatch(tree, m).value)).value.BoolConstant?)
  {
    MutantTwice(tree, m);
    FirstIsFirst(tree, m);
    var p := FirstMatch(tree, m).value;
    var n := At(tree, p);
    RewriteAgain(n);
    SameTextReplace(tree, p, Rewrite(Rewrite(n)));
  }

  // ---------------------------------------------------------------- the listed mutations

  predicate HasRaise(n: Node)
  {
    n.form.Raise? || exists i :: 0 <= i < |n.kids| && HasRaise(n.kids[i])
  }

  function Candidate(n: Node): Option<Mutation>
  {
    match n.form
    case Compare(ops) =>
      if |ops| != 1 then None
      else if ops[0].In? || ops[0].NotIn? || ops[0].Is? || ops[0].IsNot? then
        Some(Mutation(MembershipEnum, n.pos, CompareKind, OpName(ops[0])))
      else Some(Mutation(ComparisonBoundary, n.pos, CompareKind, OpName(ops[0])))
    case BoolOp(conjunction) =>
      Some(Mutation(BooleanNegation, n.pos, BoolOpKind, if conjunction then "And" else "Or"))
    case If(body) =>
      if body > 0 && |n.kids| > 1 && n.kids[1].form.Raise? then
        Some(Mutation(GuardRaiseRemoval, n.pos, IfKind, "direct_raise"))
      else if HasRaise(n) then Some(Mutation(ValidationEvidenceOmission, n.pos, IfKind, "nested_raise"))
      else None
    case Return =>
      if n.kids != [] && n.kids[0].form.BoolConstant? then
        Some(Mutation(SuccessFailureLiteral, n.pos, ReturnKind, if n.kids[0].form.value then "true" else "false"))
      else None
    case _ => None
  }

  lemma {:induction false} HasRaiseMeans(n: Node)
    ensures HasRaise(n) <==> exists y :: Contains(n, y) && y.form.Raise?
  {
    if HasRaise(n) {
      if n.form.Raise? {
        assert Contains(n, n);
      } else {
        var i :| 0 <= i < |n.kids| && HasRaise(n.kids[i]);
        HasRaiseMeans(n.kids[i]);
        var y :| Contains(n.kids[i], y) && y.form.Raise?;
        assert Contains(n, y);
      }
    }
    if y :| Contains(n, y) && y.form.Raise? {
      if y != n {
        var i :| 0 <= i < |n.kids| && Contains(n.kids[i], y);
        HasRaiseMeans(n.kids[i]);
      }
    }
  }

  /** Which nodes are listed, and in which family. */
  lemma CandidateMeans(n: Node)
    ensures Candidate(n).Some? ==> Candidate(n).value.pos == n.pos
    ensures n.form.Compare? ==>
      && (Candidate(n).Some? <==> |n.form.ops| == 1)
      && (|n.form.ops| == 1 ==>
            Candidate(n).value.family == if n.form.ops[0] in {In, NotIn, Is, IsNot} then MembershipEnum else ComparisonBoundary)
    ensures n.form.BoolOp? ==> Candidate(n).Some? && Candidate(n).value.family == BooleanNegation
    ensures n.form.If? ==>
      var direct, nested := n.form.body > 0 && |n.kids| > 1 && n.kids[1].form.Raise?, exists y :: Contains(n, y) && y.form.Raise?;
      && (Candidate(n).Some? <==> direct || nested)
      && (direct || nested ==>
            Candidate(n).value.family == if direct then GuardRaiseRemoval else ValidationEvidenceOmission)
    ensures n.form.Return? ==>
      && (Candidate(n).Some? <==> n.kids != [] && n.kids[0].form.BoolConstant?)
      && (Candidate(n).Some? ==> Candidate(n).value.family == SuccessFailureLiteral)
    ensures n.form.Raise? || n.form.BoolConstant? || n.form.OtherConstant? || n.form.Other? ==> Candidate(n).None?
  {
    HasRaiseMeans(n);
    hide Contains, HasRaise;
  }

  function OpName(op: CmpOp): string
  {
    match op
    case Eq => "Eq" case NotEq => "NotEq" case Lt => "Lt" case LtE => "LtE" case Gt => "Gt" case GtE => "GtE"
    case In => "In" case NotIn => "NotIn" case Is => "Is" case IsNot => "IsNot"
  }

  ghost predicate Contains(tree: Node, n: Node)
  {
    tree == n || exists i :: 0 <= i < |tree.kids| && Contains(tree.kids[i], n)
  }

  lemma {:induction false} ContainsKid(tree: Node, n: Node, i: nat)
    requires Contains(tree, n) && i < |n.kids|
    ensures Contains(tree, n.kids[i])
  {
    if tree == n {
      assert Contains(tree.kids[i], n.kids[i]);
    } else {
      var j :| 0 <= j < |tree.kids| && Contains(tree.kids[j], n);
      ContainsKid(tree.kids[j], n, i);
    }
  }

  lemma {:induction false} PathTo(tree: Node, n: Node) returns (p: Path)
    requires Contains(tree, n)
    ensures ValidPath(tree, p) && At(tree, p) == n
  {
    if tree == n {
      p := [];
    } else {
      var i :| 0 <= i < |tree.kids| && Contains(tree.kids[i], n);
      var q := PathTo(tree.kids[i], n);
      p := [i] + q;
    }
  }

  function Size(n: Node, from: nat): nat
    requires from <= |n.kids|
    decreases n, |n.kids| - from
  {
    if from == |n.kids| then 1 else Size(n.kids[from], 0) + Size(n, from + 1)
  }

  function TotalSize(nodes: seq<Node>): nat
  {
    if nodes == [] then 0 else Size(nodes[0], 0) + TotalSize(nodes[1..])
  }

  lemma {:induction false} TotalSizeSum(a: seq<Node>, b: seq<Node>)
    ensures TotalSize(a + b) == TotalSize(a) + TotalSize(b)
  {
    if a == [] {
      assert a + b == b;
    } else {
      TotalSizeSum(a[1..], b);
      assert (a + b)[1..] == a[1..] + b;
    }
  }

  lemma {:induction false} KidsSize(n: Node, from: nat)
    requires from <= |n.kids|
    ensures TotalSize(n.kids[from..]) + 1 == Size(n, from)
    decreases |n.kids| - from
  {
    if from < |n.kids| {
      KidsSize(n, from + 1);
      assert n.kids[from..][1..] == n.kids[from + 1..];
    }
  }

  ghost predicate Pending(todo: seq<Node>, x: Node)
  {
    exists t :: t in todo && Contains(t, x)
  }

  lemma PendingStep(todo: seq<Node>, x: Node)
    requires todo != [] && Pending(todo, x) && x != todo[0]
    ensures Pending(todo[1..] + todo[0].kids, x)
  {
    var t :| t in todo && Contains(t, x);
    if t == todo[0] {
      var i :| 0 <= i < |t.kids| && Contains(t.kids[i], x);
      assert t.kids[i] in todo[1..] + todo[0].kids;
    } else {
      assert t in todo[1..] + todo[0].kids;
    }
  }

  /** The breadth-first walk finds exactly the candidates of the nodes of the tree. */
  method Walk(tree: Node) returns (found: seq<Mutation>)
    ensures forall m :: m in found <==> exists x :: Contains(tree, x) && Candidate(x) == Some(m)
  {
    hide Candidate, Contains, Pending;
    found := [];
    var todo := [tree];
    ghost var done: seq<Node> := [];
    StartPending(tree);
    while todo != []
      invariant forall x :: Contains(tree, x) ==> x in done || Pending(todo, x)
      invariant forall x :: x in done ==> Contains(tree, x)
      invariant forall x :: x in todo ==> Contains(tree, x)
      invariant forall m :: m in found <==> exists x :: x in done && Candidate(x) == Some(m)
      decreases TotalSize(todo)
    {
      var n := todo[0];
      TotalSizeSum(todo[1..], n.kids);
      KidsSize(n, 0);
      assert n.kids[0..] == n.kids;
      forall x | Contains(tree, x) && x !in done + [n]
        ensures Pending(todo[1..] + n.kids, x)
      {
        PendingStep(todo, x);
      }
      forall x | x in n.kids
        ensures Contains(tree, x)
      {
        var i :| 0 <= i < |n.kids| && n.kids[i] == x;
        ContainsKid(tree, n, i);
      }
      todo := todo[1..] + n.kids;
      ghost var before := found;
      var candidate := Candidate(n);
      if candidate.Some? {
        found := found + [candidate.value];
      }
      OneMore(before, found, done, n);
      done := done + [n];
    }
    NonePending();
  }

  lemma OneMore(before: seq<Mutation>, found: seq<Mutation>, done: seq<Node>, n: Node)
    requires forall m :: m in before <==> exists x :: x in done && Candidate(x) == Some(m)
    requires found == if Candidate(n).Some? then before + [Candidate(n).value] else before
    ensures forall m :: m in found <==> exists x :: x in done + [n] && Candidate(x) == Some(m)
  {
    hide Candidate;
    forall m
      ensures m in found <==> exists x :: x in done + [n] && Candidate(x) == Some(m)
    {
      assert n in done + [n];
      assert forall x :: x in done ==> x in done + [n];
      assert m in found <==> m in before || Candidate(n) == Some(m);
    }
  }

  lemma StartPending(tree: Node)
    ensures Contains(tree, tree)
    ensures forall x :: Contains(tree, x) ==> Pending([tree], x)
  {
    assert tree in [tree];
  }

  lemma NonePending()
    ensures forall x :: !Pending([], x)
  {
  }

  // ---------------------------------------------------------------- the listing

  /** What the listing is sorted by. */
  datatype Key = Key(line: int, col: int, family: nat)

  /** The place of a family's name in the alphabet. */
  function FamilyRank(f: Family): nat
  {
    match f
    case BooleanNegation => 0 case ComparisonBoundary => 1 case GuardRaiseRemoval => 2
    case MembershipEnum => 3 case SuccessFailureLiteral => 4 case ValidationEvidenceOmission => 5
  }

  function KeyOf(m: Mutation): Key
  {
    Key(m.pos.line, m.pos.col, FamilyRank(m.family))
  }

  predicate AtMost(a: Key, b: Key)
  {
    a.line < b.line || (a.line == b.line && (a.col < b.col || (a.col == b.col && a.family <= b.family)))
  }

  function Keys(s: seq<Mutation>): (keys: seq<Key>)
    ensures |keys| == |s|
  {
    seq(|s|, i requires 0 <= i < |s| => KeyOf(s[i]))
  }

  ghost predicate Sorted(keys: seq<Key>)
  {
    forall i, j :: 0 <= i < j < |keys| ==> AtMost(keys[i], keys[j])
  }

  /** Every candidate once, by line, column and family. Candidates with the same key come in
      any order: it is the order of a hash set. */
  ghost predicate Listing(tree: Node, s: seq<Mutation>)
  {
    && Distinct(s) && Sorted(Keys(s))
    && forall m :: m in s <==> exists x :: Contains(tree, x) && Candidate(x) == Some(m)
  }

  method Insert(s: seq<Mutation>, m: Mutation) returns (t: seq<Mutation>)
    requires Sorted(Keys(s)) && Distinct(s) && m !in s
    ensures Sorted(Keys(t)) && Distinct(t) && forall x :: x in t <==> x in s || x == m
  {
    hide Sorted, Keys, KeyOf, Distinct;
    var i := |s|;
    while i > 0 && !AtMost(KeyOf(s[i - 1]), KeyOf(m))
      invariant 0 <= i <= |s|
      invariant forall j :: i <= j < |s| ==> AtMost(KeyOf(m), KeyOf(s[j]))
    {
      i := i - 1;
    }
    t := s[..i] + [m] + s[i..];
    InsertSorted(s, m, i);
    InsertElements(s, m, i);
  }

  lemma InsertElements(s: seq<Mutation>, m: Mutation, i: nat)
    requires Distinct(s) && m !in s && i <= |s|
    ensures var t := s[..i] + [m] + s[i..];
      Distinct(t) && forall x :: x in t <==> x in s || x == m
  {
    assert s == s[..i] + s[i..];
  }

  lemma InsertSorted(s: seq<Mutation>, m: Mutation, i: nat)
    requires Sorted(Keys(s)) && i <= |s|
    requires forall j :: i <= j < |s| ==> AtMost(KeyOf(m), KeyOf(s[j]))
    requires i > 0 ==> AtMost(KeyOf(s[i - 1]), KeyOf(m))
    ensures Sorted(Keys(s[..i] + [m] + s[i..]))
  {
    var keys := Keys(s);
    assert Keys(s[..i] + [m] + s[i..]) == keys[..i] + [KeyOf(m)] + keys[i..];
    forall j | 0 <= j < i
      ensures AtMost(keys[j], KeyOf(m))
    {
      assert j < i - 1 ==> AtMost(keys[j], keys[i - 1]);
    }
  }

  /** The candidates of the tree, without repeats and sorted. */
  method Candidates(tree: Node) returns (s: seq<Mutation>)
    ensures Listing(tree, s)
  {
    var found := Walk(tree);
    hide Candidate, Contains, KeyOf;
    var left := set m | m in found;
    s := [];
    while left != {}
      invariant Sorted(Keys(s)) && Distinct(s)
      invariant forall m :: m in found <==> m in s || m in left
      invariant forall m :: m in left ==> m !in s
      decreases |left|
    {
      var m :| m in left;
      s := Insert(s, m);
      left := left - {m};
    }
  }

  lemma {:induction false} KeysOfSame(s: seq<Mutation>, t: seq<Mutation>)
    requires multiset(s) == multiset(t)
    ensures multiset(Keys(s)) == multiset(Keys(t))
    decreases |s|
  {
    hide Keys;
    SameLength(s, t);
    if s != [] {
      var i := Find(t, s[0]);
      var rest, others := s[..0] + s[1..], t[..i] + t[i + 1..];
      Without(s, 0);
      Without(t, i);
      KeysOfSame(rest, others);
      KeysAround(s, 0);
      KeysAround(t, i);
    }
  }

  lemma SameLength<T>(s: seq<T>, t: seq<T>)
    requires multiset(s) == multiset(t)
    ensures |s| == |t| && (s == [] ==> t == []) && forall x :: x in s <==> x in t
  {
    assert |multiset(s)| == |s| && |multiset(t)| == |t|;
    forall x
      ensures x in s <==> x in t
    {
      assert x in multiset(s) <==> x in multiset(t);
    }
  }

  lemma Find<T>(s: seq<T>, x: T) returns (i: nat)
    requires x in s
    ensures i < |s| && s[i] == x
  {
    i :| 0 <= i < |s| && s[i] == x;
  }

  lemma KeysAround(s: seq<Mutation>, i: nat)
    requires i < |s|
    ensures multiset(Keys(s)) == multiset(Keys(s[..i] + s[i + 1..])) + multiset{KeyOf(s[i])}
  {
    assert s == s[..i] + [s[i]] + s[i + 1..];
    assert Keys([s[i]]) == [KeyOf(s[i])];
    hide Keys, KeyOf;
    KeysSum(s[..i], s[i + 1..]);
    KeysSum(s[..i], [s[i]]);
    KeysSum(s[..i] + [s[i]], s[i + 1..]);
  }

  lemma Without<T>(s: seq<T>, i: nat)
    requires i < |s|
    ensures multiset(s[..i] + s[i + 1..]) == multiset(s) - multiset{s[i]}
  {
    assert s == s[..i] + [s[i]] + s[i + 1..];
  }

  lemma SortedFirst(a: seq<Key>, b: seq<Key>)
    requires a != [] && b != [] && Sorted(a) && Sorted(b) && forall k :: k in a <==> k in b
    ensures a[0] == b[0]
  {
    assert a[0] in b && b[0] in a;
    var i :| 0 <= i < |b| && b[i] == a[0];
    var j :| 0 <= j < |a| && a[j] == b[0];
    assert i == 0 || AtMost(b[0], b[i]);
    assert j == 0 || AtMost(a[0], a[j]);
  }

  lemma SortedTail(a: seq<Key>)
    requires a != [] && Sorted(a)
    ensures Sorted(a[..0] + a[1..]) && a == [a[0]] + (a[..0] + a[1..])
  {
  }

  /** There is one sorted sequence of the same keys. */
  lemma {:induction false} SortedOnce(a: seq<Key>, b: seq<Key>)
    requires multiset(a) == multiset(b) && Sorted(a) && Sorted(b)
    ensures a == b
    decreases |a|
  {
    SameLength(a, b);
    hide Sorted, AtMost;
    if a != [] {
      SortedFirst(a, b);
      SortedTail(a);
      SortedTail(b);
      Without(a, 0);
      Without(b, 0);
      SortedOnce(a[..0] + a[1..], b[..0] + b[1..]);
    }
  }

  lemma SameElements(s: seq<Mutation>, t: seq<Mutation>)
    requires Distinct(s) && Distinct(t) && forall m :: m in s <==> m in t
    ensures multiset(s) == multiset(t)
  {
    forall m
      ensures multiset(s)[m] == multiset(t)[m]
    {
      DistinctOnce(s, m);
      DistinctOnce(t, m);
    }
  }

  lemma {:induction false} DistinctOnce(s: seq<Mutation>, m: Mutation)
    requires Distinct(s)
    ensures multiset(s)[m] == if m in s then 1 else 0
  {
    if s != [] {
      assert s == [s[0]] + s[1..];
      DistinctOnce(s[1..], m);
    }
  }

  /** The kind of node a family mutates. */
  function KindFor(f: Family): Kind
  {
    match f
    case BooleanNegation => BoolOpKind
    case ComparisonBoundary => CompareKind
    case MembershipEnum => CompareKind
    case SuccessFailureLiteral => ReturnKind
    case _ => IfKind
  }

  lemma CandidateKind(x: Node, m: Mutation)
    requires Candidate(x) == Some(m)
    ensures m.kind == KindFor(m.family)
  {
  }

  /** Whatever order equal keys come in, two listings of a tree agree place by place on the key,
      and on the mutant. */
  lemma ListingsAgree(tree: Node, s: seq<Mutation>, t: seq<Mutation>)
    requires Listing(tree, s) && Listing(tree, t)
    ensures Keys(s) == Keys(t)
    ensures forall i :: 0 <= i < |s| ==> Mutant(tree, s[i]) == Mutant(tree, t[i])
  {
    hide Candidate, Contains, Mutant, KeyOf;
    SameElements(s, t);
    KeysOfSame(s, t);
    SortedOnce(Keys(s), Keys(t));
    SameKeysSameMutants(tree, s, t);
  }

  /** Candidates with equal keys make equal mutants. */
  lemma SameKeysSameMutants(tree: Node, s: seq<Mutation>, t: seq<Mutation>)
    requires Keys(s) == Keys(t)
    requires forall m :: m in s || m in t ==> exists x :: Contains(tree, x) && Candidate(x) == Some(m)
    ensures forall i :: 0 <= i < |s| ==> Mutant(tree, s[i]) == Mutant(tree, t[i])
  {
    hide Candidate, Contains, Mutant;
    forall i | 0 <= i < |s|
      ensures Mutant(tree, s[i]) == Mutant(tree, t[i])
    {
      assert Keys(s)[i] == Keys(t)[i];
      assert s[i] in s && t[i] in t;
      var x :| Contains(tree, x) && Candidate(x) == Some(s[i]);
      var y :| Contains(tree, y) && Candidate(y) == Some(t[i]);
      CandidateKind(x, s[i]);
      CandidateKind(y, t[i]);
      SamePlaceSameMutant(tree, s[i], t[i]);
    }
  }

  /** Every listed mutation finds a node to rewrite; the candidate itself unless a node of the
      same kind and place is visited earlier. */
  lemma ListedIsFound(tree: Node, x: Node, m: Mutation) returns (q: Path)
    requires Contains(tree, x) && Candidate(x) == Some(m)
    ensures FirstMatch(tree, m).Some? && ValidPath(tree, q) && At(tree, q) == x && Matches(x, m)
    ensures FirstMatch(tree, m) == Some(q) <==>
      forall q' :: ValidPath(tree, q') && PostBefore(q', q) ==> !Matches(At(tree, q'), m)
  {
    q := PathTo(tree, x);
    FirstIsFirst(tree, m);
    var p := FirstMatch(tree, m).value;
    PostTotal(p, q);
  }

  lemma {:induction false} PostTotal(p: Path, q: Path)
    ensures p == q || PostBefore(p, q) || PostBefore(q, p)
  {
    if p != [] && q != [] && p[0] == q[0] {
      PostTotal(p[1..], q[1..]);
      assert p == [p[0]] + p[1..] && q == [q[0]] + q[1..];
    }
  }

  /** Two listed mutations of the same kind at the same place make the same mutant. */
  lemma SamePlaceSameMutant(tree: Node, m: Mutation, m': Mutation)
    requires m.kind == m'.kind && m.pos == m'.pos
    ensures Mutant(tree, m) == Mutant(tree, m')
  {
    SameFirst(tree, m, m');
  }

  lemma {:induction false} SameFirst(n: Node, m: Mutation, m': Mutation)
    requires m.kind == m'.kind && m.pos == m'.pos
    ensures FirstMatch(n, m) == FirstMatch(n, m')
    decreases n, |n.kids| + 1
  {
    SameBelow(n, m, m', 0);
  }

  lemma {:induction false} SameBelow(n: Node, m: Mutation, m': Mutation, from: nat)
    requires m.kind == m'.kind && m.pos == m'.pos && from <= |n.kids|
    ensures FirstBelow(n, m, from) == FirstBelow(n, m', from)
    decreases n, |n.kids| - from
  {
    if from < |n.kids| {
      SameFirst(n.kids[from], m, m');
      SameBelow(n, m, m', from + 1);
    }
  }

  /** `a and b or c`: both operations start at the same place, both are listed, and both
      mutations rewrite the inner one. */
  lemma OuterNeverMutated(at: Pos, b: Node, c: Node, a: Node)
    requires forall n :: n in [a, b, c] ==> n.form.Other? && n.kids == []
    ensures var inner := Node(BoolOp(true), at, [a, b]);
      var tree := Node(BoolOp(false), at, [inner, c]);
      && Candidate(tree).Some? && Candidate(inner).Some? && Candidate(tree) != Candidate(inner)
      && Mutant(tree, Candidate(tree).value) == Some(Node(BoolOp(false), at, [Node(BoolOp(false), at, [a, b]), c]))
      && Mutant(tree, Candidate(inner).value) == Mutant(tree, Candidate(tree).value)
  {
    var inner := Node(BoolOp(true), at, [a, b]);
    var tree := Node(BoolOp(false), at, [inner, c]);
    var m := Candidate(tree).value;
    assert a in [a, b, c] && b in [a, b, c] && c in [a, b, c];
    assert FirstBelow(a, m, 0).None? && FirstBelow(b, m, 0).None?;
    assert FirstMatch(a, m).None? && FirstMatch(b, m).None?;
    assert FirstBelow(inner, m, 1).None?;
    assert FirstBelow(inner, m, 0).None?;
    assert FirstMatch(inner, m) == Some([]);
    assert FirstMatch(tree, m) == Some([0] + []);
    assert [0] + [] == [0] && [0][1..] == [];
    assert At(tree, [0]) == At(inner, []) && ValidPath(inner, []);
    var changed := Node(BoolOp(false), at, [a, b]);
    assert Rewrite(inner) == changed && ReplaceAt(inner, [], changed) == changed;
    assert ReplaceAt(tree, [0], changed) == tree.(kids := tree.kids[0 := changed]);
    assert [inner, c][0 := changed] == [changed, c];
    assert Candidate(tree).value.detail[0] != Candidate(inner).value.detail[0];
    SamePlaceSameMutant(tree, Candidate(inner).value, m);
  }

  // ---------------------------------------------------------------- the selection

  const MUTANTS_PER_FILE: nat := 50

  /** The families in the order of their names, and in the order of priority. */
  const BY_NAME: seq<Family> :=
    [BooleanNegation, ComparisonBoundary, GuardRaiseRemoval, MembershipEnum, SuccessFailureLiteral, ValidationEvidenceOmission]
  const BY_PRIORITY: seq<Family> :=
    [ComparisonBoundary, MembershipEnum, BooleanNegation, ValidationEvidenceOmission, GuardRaiseRemoval, SuccessFailureLiteral]

  function Of(candidates: seq<Mutation>, f: Family): (r: seq<Mutation>)
    ensures forall m :: m in r <==> m in candidates && m.family == f
  {
    if candidates == [] then []
    else
      var last := candidates[|candidates| - 1];
      assert candidates == candidates[..|candidates| - 1] + [last];
      Of(candidates[..|candidates| - 1], f) + if last.family == f then [last] else []
  }

  function Head(s: seq<Mutation>): seq<Mutation>
  {
    if s == [] then [] else [s[0]]
  }

  function Tail(s: seq<Mutation>): seq<Mutation>
  {
    if s == [] then [] else s[1..]
  }

  /** The first candidate of every family. */
  function Heads(candidates: seq<Mutation>, families: seq<Family>): seq<Mutation>
  {
    if families == [] then []
    else Heads(candidates, families[..|families| - 1]) + Head(Of(candidates, families[|families| - 1]))
  }

  /** The other candidates, family by family. */
  function Tails(candidates: seq<Mutation>, families: seq<Family>): seq<Mutation>
  {
    if families == [] then []
    else Tails(candidates, families[..|families| - 1]) + Tail(Of(candidates, families[|families| - 1]))
  }

  function Ranking(candidates: seq<Mutation>): seq<Mutation>
  {
    Heads(candidates, BY_NAME) + Tails(candidates, BY_PRIORITY)
  }

  function Cut(s: seq<Mutation>): seq<Mutation>
  {
    if |s| <= MUTANTS_PER_FILE then s else s[..MUTANTS_PER_FILE]
  }

  lemma OfNone()
    ensures forall f :: Of([], f) == []
  {
  }

  lemma OfNext(before: seq<Mutation>, c: Mutation)
    ensures forall f :: Of(before + [c], f) == Of(before, f) + if c.family == f then [c] else []
  {
    assert (before + [c])[..|before|] == before;
  }

  /** Grouping into lists by family. */
  method Group(candidates: seq<Mutation>) returns (byFamily: map<Family, seq<Mutation>>)
    ensures forall f :: f in byFamily <==> Of(candidates, f) != []
    ensures forall f :: f in byFamily ==> byFamily[f] == Of(candidates, f)
  {
    hide Of;
    byFamily := map[];
    OfNone();
    assert candidates[..0] == [];
    for i := 0 to |candidates|
      invariant forall f :: f in byFamily <==> Of(candidates[..i], f) != []
      invariant forall f :: f in byFamily ==> byFamily[f] == Of(candidates[..i], f)
    {
      var c := candidates[i];
      assert candidates[..i + 1] == candidates[..i] + [c];
      OfNext(candidates[..i], c);
      byFamily := byFamily[c.family := (if c.family in byFamily then byFamily[c.family] else []) + [c]];
    }
    assert candidates[..|candidates|] == candidates;
  }

  /** Takes the first of every family off its list. */
  method TakeHeads(candidates: seq<Mutation>, byFamily0: map<Family, seq<Mutation>>)
      returns (byFamily: map<Family, seq<Mutation>>, selected: seq<Mutation>)
    requires forall f :: Rest(byFamily0, f) == Of(candidates, f)
    ensures selected == Heads(candidates, BY_NAME)
    ensures forall f :: f in BY_NAME ==> Rest(byFamily, f) == Tail(Of(candidates, f))
  {
    hide Of;
    byFamily, selected := byFamily0, [];
    for i := 0 to |BY_NAME|
      invariant selected == Heads(candidates, BY_NAME[..i])
      invariant forall f :: Rest(byFamily, f) == if f in BY_NAME[..i] then Tail(Of(candidates, f)) else Of(candidates, f)
    {
      var f := BY_NAME[i];
      NextFamily(BY_NAME, i);
      AllFamilies(f);
      if f in byFamily && byFamily[f] != [] {
        selected := selected + [byFamily[f][0]];
        byFamily := byFamily[f := byFamily[f][1..]];
      }
    }
    assert BY_NAME[..|BY_NAME|] == BY_NAME;
  }

  lemma NextFamily(families: seq<Family>, i: nat)
    requires i < |families|
    ensures families[..i + 1] == families[..i] + [families[i]] && families[..i + 1][..i] == families[..i]
    ensures families[i..] == [families[i]] + families[i + 1..]
    ensures Distinct(families) ==> families[i] !in families[..i] && families[i] !in families[i + 1..]
  {
  }

  /** Takes from one family's list until it is empty or the quota is full. */
  method TakeFamily(byFamily0: map<Family, seq<Mutation>>, f: Family, selected0: seq<Mutation>, ghost before: seq<Mutation>)
      returns (byFamily: map<Family, seq<Mutation>>, selected: seq<Mutation>)
    requires selected0 == Cut(before)
    ensures selected == Cut(before + Rest(byFamily0, f))
    ensures forall g :: g != f ==> Rest(byFamily, g) == Rest(byFamily0, g)
  {
    byFamily, selected := byFamily0, selected0;
    ghost var tail := Rest(byFamily0, f);
    ghost var k := 0;
    assert before + tail[..0] == before;
    while f in byFamily && byFamily[f] != [] && |selected| < MUTANTS_PER_FILE
      invariant 0 <= k <= |tail|
      invariant Rest(byFamily, f) == tail[k..]
      invariant selected == Cut(before + tail[..k])
      invariant forall g :: g != f ==> Rest(byFamily, g) == Rest(byFamily0, g)
      decreases |tail| - k
    {
      assert before + tail[..k + 1] == before + tail[..k] + [tail[k]];
      selected := selected + [byFamily[f][0]];
      byFamily := byFamily[f := byFamily[f][1..]];
      k := k + 1;
    }
    assert before + tail == before + tail[..k] + tail[k..];
  }

  /** One representative of every family, then by priority until the quota is full. */
  method Select(candidates: seq<Mutation>) returns (r: Reply<seq<Mutation>>)
    ensures |Ranking(candidates)| == |candidates|
    ensures r.Ok? <==> |candidates| >= MUTANTS_PER_FILE
    ensures r.Ok? ==> r.value == Ranking(candidates)[..MUTANTS_PER_FILE]
  {
    hide Of, Heads, Head, Tail, Tails;
    RankingCounts(candidates);
    HeadsFew(candidates, BY_NAME);
    var byFamily := Group(candidates);
    var heads;
    byFamily, heads := TakeHeads(candidates, byFamily);
    forall f
      ensures f in BY_NAME && Distinct(BY_PRIORITY)
    {
      AllFamilies(f);
    }
    var selected := FillByPriority(candidates, BY_PRIORITY, byFamily, heads);
    r := if |selected| != MUTANTS_PER_FILE then Raised else Ok(selected);
  }

  method FillByPriority(candidates: seq<Mutation>, families: seq<Family>, byFamily0: map<Family, seq<Mutation>>, heads: seq<Mutation>)
      returns (selected: seq<Mutation>)
    requires Distinct(families) && |heads| <= MUTANTS_PER_FILE
    requires forall f :: Rest(byFamily0, f) == Tail(Of(candidates, f))
    ensures selected == Cut(heads + Tails(candidates, families))
  {
    hide Of, Tail, Rest;
    var byFamily := byFamily0;
    selected := heads;
    assert heads + Tails(candidates, families[..0]) == heads;
    for i := 0 to |families|
      invariant selected == Cut(heads + Tails(candidates, families[..i]))
      invariant forall f :: f in families[i..] ==> Rest(byFamily, f) == Tail(Of(candidates, f))
    {
      var f := families[i];
      NextFamily(families, i);
      ghost var before := heads + Tails(candidates, families[..i]);
      byFamily, selected := TakeFamily(byFamily, f, selected, before);
      assert before + Tail(Of(candidates, f)) == heads + Tails(candidates, families[..i + 1]);
    }
    assert families[..|families|] == families;
  }

  function Rest(byFamily: map<Family, seq<Mutation>>, f: Family): seq<Mutation>
  {
    if f in byFamily then byFamily[f] else []
  }

  lemma {:induction false} HeadsFew(candidates: seq<Mutation>, families: seq<Family>)
    ensures |Heads(candidates, families)| <= |families|
  {
    if families != [] {
      HeadsFew(candidates, families[..|families| - 1]);
    }
  }

  lemma {:induction false} OfCount(candidates: seq<Mutation>, f: Family, m: Mutation)
    ensures multiset(Of(candidates, f))[m] == if m.family == f then multiset(candidates)[m] else 0
  {
    if candidates != [] {
      var before, last := candidates[..|candidates| - 1], candidates[|candidates| - 1];
      assert candidates == before + [last];
      OfCount(before, f, m);
    }
  }

  lemma {:induction false} HeadsCount(candidates: seq<Mutation>, families: seq<Family>, m: Mutation)
    requires Distinct(families)
    ensures multiset(Heads(candidates, families))[m] ==
      if m.family in families then multiset(Head(Of(candidates, m.family)))[m] else 0
    ensures multiset(Tails(candidates, families))[m] ==
      if m.family in families then multiset(Tail(Of(candidates, m.family)))[m] else 0
  {
    if families != [] {
      var before, last := families[..|families| - 1], families[|families| - 1];
      assert families == before + [last];
      HeadsCount(candidates, before, m);
      OtherFamily(candidates, last, m);
      hide Of, Head, Tail;
    }
  }

  lemma OtherFamily(candidates: seq<Mutation>, f: Family, m: Mutation)
    ensures m.family != f ==> multiset(Head(Of(candidates, f)))[m] == 0 && multiset(Tail(Of(candidates, f)))[m] == 0
  {
    if m.family != f {
      assert m !in Of(candidates, f);
      assert m !in Head(Of(candidates, f)) && m !in Tail(Of(candidates, f));
    }
  }

  lemma HeadTail(s: seq<Mutation>)
    ensures Head(s) + Tail(s) == s
  {
  }

  /** The ranking only reorders the candidates. */
  lemma RankingPermutes(candidates: seq<Mutation>)
    ensures multiset(Ranking(candidates)) == multiset(candidates)
  {
    forall m
      ensures multiset(Ranking(candidates))[m] == multiset(candidates)[m]
    {
      hide Heads, Tails, Of;
      AllFamilies(m.family);
      HeadsCount(candidates, BY_NAME, m);
      HeadsCount(candidates, BY_PRIORITY, m);
      OfCount(candidates, m.family, m);
      HeadTail(Of(candidates, m.family));
      assert multiset(Of(candidates, m.family)) ==
        multiset(Head(Of(candidates, m.family))) + multiset(Tail(Of(candidates, m.family)));
    }
  }

  lemma AllFamilies(f: Family)
    ensures f in BY_NAME && f in BY_PRIORITY && Distinct(BY_NAME) && Distinct(BY_PRIORITY)
  {
    assert BY_NAME[0] == BooleanNegation && BY_NAME[1] == ComparisonBoundary && BY_NAME[2] == GuardRaiseRemoval
      && BY_NAME[3] == MembershipEnum && BY_NAME[4] == SuccessFailureLiteral && BY_NAME[5] == ValidationEvidenceOmission;
    assert BY_PRIORITY[0] == ComparisonBoundary && BY_PRIORITY[1] == MembershipEnum && BY_PRIORITY[2] == BooleanNegation
      && BY_PRIORITY[3] == ValidationEvidenceOmission && BY_PRIORITY[4] == GuardRaiseRemoval && BY_PRIORITY[5] == SuccessFailureLiteral;
  }

  lemma RankingCounts(candidates: seq<Mutation>)
    ensures |Ranking(candidates)| == |candidates|
  {
    RankingPermutes(candidates);
    assert |multiset(Ranking(candidates))| == |multiset(candidates)|;
  }

  /** No candidate is selected more often than it is listed, and every family that has a
      candidate is represented. */
  lemma SelectionFair(candidates: seq<Mutation>)
    requires |candidates| >= MUTANTS_PER_FILE
    ensures |Ranking(candidates)| == |candidates|
    ensures multiset(Ranking(candidates)[..MUTANTS_PER_FILE]) <= multiset(candidates)
    ensures forall f :: Of(candidates, f) != [] ==> Of(candidates, f)[0] in Ranking(candidates)[..MUTANTS_PER_FILE]
  {
    var ranking := Ranking(candidates);
    RankingCounts(candidates);
    RankingPermutes(candidates);
    assert ranking == ranking[..MUTANTS_PER_FILE] + ranking[MUTANTS_PER_FILE..];
    HeadsFew(candidates, BY_NAME);
    forall f | Of(candidates, f) != []
      ensures Of(candidates, f)[0] in ranking[..MUTANTS_PER_FILE]
    {
      AllFamilies(f);
      HeadIn(candidates, BY_NAME, f);
      var i :| 0 <= i < |Heads(candidates, BY_NAME)| && Heads(candidates, BY_NAME)[i] == Of(candidates, f)[0];
      assert ranking[..MUTANTS_PER_FILE][i] == Of(candidates, f)[0];
    }
  }

  lemma {:induction false} HeadIn(candidates: seq<Mutation>, families: seq<Family>, f: Family)
    requires f in families && Of(candidates, f) != []
    ensures Of(candidates, f)[0] in Heads(candidates, families)
  {
    if f != families[|families| - 1] {
      HeadIn(candidates, families[..|families| - 1], f);
    }
  }

  /** The selection looks at keys only. */
  lemma {:induction false} OfKeys(s: seq<Mutation>, t: seq<Mutation>, f: Family)
    requires Keys(s) == Keys(t)
    ensures Keys(Of(s, f)) == Keys(Of(t, f))
  {
    if s != [] {
      var n := |s| - 1;
      LastKeys(s, t);
      hide Keys, KeyOf;
      OfKeys(s[..n], t[..n], f);
      KeysSum(Of(s[..n], f), if s[n].family == f then [s[n]] else []);
      KeysSum(Of(t[..n], f), if t[n].family == f then [t[n]] else []);
    } else {
      assert t == [] by {
        assert |Keys(t)| == 0;
      }
    }
  }

  lemma LastKeys(s: seq<Mutation>, t: seq<Mutation>)
    requires Keys(s) == Keys(t) && s != []
    ensures |t| == |s| && s[|s| - 1].family == t[|s| - 1].family
    ensures Keys(s[..|s| - 1]) == Keys(t[..|s| - 1]) && Keys([s[|s| - 1]]) == Keys([t[|s| - 1]])
  {
    var n := |s| - 1;
    assert Keys(s)[n] == Keys(t)[n];
    assert Keys(s[..n]) == Keys(s)[..n] && Keys(t[..n]) == Keys(t)[..n];
    FamilyOfKey(s[n], t[n]);
  }

  lemma FamilyOfKey(m: Mutation, m': Mutation)
    requires KeyOf(m) == KeyOf(m')
    ensures m.family == m'.family
  {
  }

  lemma KeysSum(a: seq<Mutation>, b: seq<Mutation>)
    ensures Keys(a + b) == Keys(a) + Keys(b)
  {
  }

  lemma HeadTailKeys(s: seq<Mutation>, t: seq<Mutation>)
    requires Keys(s) == Keys(t)
    ensures Keys(Head(s)) == Keys(Head(t)) && Keys(Tail(s)) == Keys(Tail(t))
  {
    if s != [] {
      assert Keys(s)[0] == Keys(t)[0];
      assert Keys(s[1..]) == Keys(s)[1..] && Keys(t[1..]) == Keys(t)[1..];
    }
  }

  lemma {:induction false} FamilyKeys(s: seq<Mutation>, t: seq<Mutation>, families: seq<Family>)
    requires Keys(s) == Keys(t)
    ensures Keys(Heads(s, families)) == Keys(Heads(t, families))
    ensures Keys(Tails(s, families)) == Keys(Tails(t, families))
  {
    hide Keys, Head, Tail, Of;
    if families != [] {
      var before, f := families[..|families| - 1], families[|families| - 1];
      FamilyKeys(s, t, before);
      OfKeys(s, t, f);
      HeadTailKeys(Of(s, f), Of(t, f));
      KeysSum(Heads(s, before), Head(Of(s, f)));
      KeysSum(Heads(t, before), Head(Of(t, f)));
      KeysSum(Tails(s, before), Tail(Of(s, f)));
      KeysSum(Tails(t, before), Tail(Of(t, f)));
    } else {
      assert Heads(s, families) == Heads(t, families);
    }
  }

  /** So the order of the hash set never shows: whatever it is, the same mutants are selected
      in the same order. */
  lemma SelectionStable(tree: Node, s: seq<Mutation>, t: seq<Mutation>)
    requires Listing(tree, s) && Listing(tree, t)
    ensures |Ranking(s)| == |Ranking(t)|
    ensures forall i :: 0 <= i < |Ranking(s)| ==> Mutant(tree, Ranking(s)[i]) == Mutant(tree, Ranking(t)[i])
  {
    ListingsAgree(tree, s, t);
    hide Heads, Tails, Candidate, Contains, Mutant, Keys;
    FamilyKeys(s, t, BY_NAME);
    FamilyKeys(s, t, BY_PRIORITY);
    KeysSum(Heads(s, BY_NAME), Tails(s, BY_PRIORITY));
    KeysSum(Heads(t, BY_NAME), Tails(t, BY_PRIORITY));
    RankingElements(s);
    RankingElements(t);
    SameKeysSameMutants(tree, Ranking(s), Ranking(t));
  }

  lemma RankingElements(s: seq<Mutation>)
    ensures forall m :: m in Ranking(s) <==> m in s
  {
    RankingPermutes(s);
    hide Ranking;
    forall m
      ensures m in Ranking(s) <==> m in s
    {
      assert m in multiset(Ranking(s)) <==> m in multiset(s);
    }
  }

  ghost predicate Names(families: seq<Family>, a: int, f: Family)
  {
    0 <= a < |families| && families[a] == f
  }

  /** Family by family in the given order. */
  ghost predicate ByFamily(s: seq<Mutation>, families: seq<Family>)
  {
    && (forall m :: m in s ==> m.family in families)
    && (forall i, j, a, b :: 0 <= i < j < |s| && Names(families, a, s[i].family) && Names(families, b, s[j].family) ==> a <= b)
  }

  lemma ByFamilyNext(s: seq<Mutation>, families: seq<Family>, f: Family, more: seq<Mutation>)
    requires ByFamily(s, families) && f !in families && forall m :: m in more ==> m.family == f
    ensures ByFamily(s + more, families + [f])
  {
    var all, fs := s + more, families + [f];
    forall m | m in all
      ensures m.family in fs
    {
      assert m in s || m in more;
      assert fs[|families|] == f;
    }
    forall i, j, a, b | 0 <= i < j < |all| && Names(fs, a, all[i].family) && Names(fs, b, all[j].family)
      ensures a <= b
    {
      if j >= |s| {
        assert all[j] in more && b == |families|;
      } else {
        assert s[i] in s && s[j] in s && s[i].family in families && s[j].family in families;
        assert Names(families, a, s[i].family) && Names(families, b, s[j].family);
      }
    }
  }

  /** What is selected first is one of each family in the order of their names, then the others
      family by family in the order of priority; within a family the listed order stays. */
  lemma {:induction false} SelectionOrder(candidates: seq<Mutation>, families: seq<Family>, f: Family)
    requires Distinct(families)
    ensures ByFamily(Heads(candidates, families), families) && ByFamily(Tails(candidates, families), families)
    ensures Of(Heads(candidates, families), f) == if f in families then Head(Of(candidates, f)) else []
    ensures Of(Tails(candidates, families), f) == if f in families then Tail(Of(candidates, f)) else []
    decreases |families|
  {
    hide *;
    if families == [] {
      SelectionNone(candidates, f);
    } else {
      var before, last := FamilySplit(families);
      SelectionOrder(candidates, before, f);
      LastFamily(candidates, before, last, f);
    }
  }

  lemma FamilySplit(families: seq<Family>) returns (before: seq<Family>, last: Family)
    requires families != [] && Distinct(families)
    ensures families == before + [last] && |before| < |families| && Distinct(before) && last !in before
    ensures forall f :: f in families <==> f in before || f == last
  {
    before, last := families[..|families| - 1], families[|families| - 1];
    assert families == before + [last];
  }

  lemma SelectionNone(candidates: seq<Mutation>, f: Family)
    ensures ByFamily(Heads(candidates, []), []) && ByFamily(Tails(candidates, []), [])
    ensures Of(Heads(candidates, []), f) == [] && Of(Tails(candidates, []), f) == []
  {
    OfNone();
  }

  /** One more family at the end. */
  lemma LastFamily(candidates: seq<Mutation>, before: seq<Family>, last: Family, f: Family)
    requires last !in before
    requires ByFamily(Heads(candidates, before), before) && ByFamily(Tails(candidates, before), before)
    ensures var all := before + [last];
      && ByFamily(Heads(candidates, all), all) && ByFamily(Tails(candidates, all), all)
      && Of(Heads(candidates, all), f) ==
           Of(Heads(candidates, before), f) + (if f == last then Head(Of(candidates, f)) else [])
      && Of(Tails(candidates, all), f) ==
           Of(Tails(candidates, before), f) + (if f == last then Tail(Of(candidates, f)) else [])
  {
    var all := before + [last];
    assert all[..|all| - 1] == before;
    var head, tail := Head(Of(candidates, last)), Tail(Of(candidates, last));
    OneFamily(candidates, last);
    assert Heads(candidates, all) == Heads(candidates, before) + head;
    assert Tails(candidates, all) == Tails(candidates, before) + tail;
    hide Of, Head, Tail, ByFamily, Heads, Tails;
    OfSum(Heads(candidates, before), head, f);
    OfSum(Tails(candidates, before), tail, f);
    OfAll(head, f, last);
    OfAll(tail, f, last);
    ByFamilyNext(Heads(candidates, before), before, last, head);
    ByFamilyNext(Tails(candidates, before), before, last, tail);
  }

  lemma OneFamily(candidates: seq<Mutation>, f: Family)
    ensures forall m :: m in Head(Of(candidates, f)) || m in Tail(Of(candidates, f)) ==> m.family == f
  {
    hide Of;
  }

  lemma {:induction false} OfSum(a: seq<Mutation>, b: seq<Mutation>, f: Family)
    ensures Of(a + b, f) == Of(a, f) + Of(b, f)
  {
    hide Of;
    if b == [] {
      OfNone();
      assert a + b == a && Of(a, f) + [] == Of(a, f);
    } else {
      var init, last := b[..|b| - 1], b[|b| - 1];
      OfSum(a, init, f);
      OfNext(a + init, last);
      OfNext(init, last);
      assert a + b == a + init + [last] && b == init + [last];
      var piece := if last.family == f then [last] else [];
      assert Of(a, f) + Of(init, f) + piece == Of(a, f) + (Of(init, f) + piece);
    }
  }

  lemma {:induction false} OfAll(s: seq<Mutation>, f: Family, g: Family)
    requires forall m :: m in s ==> m.family == g
    ensures Of(s, f) == if f == g then s else []
  {
    hide Of;
    if s == [] {
      OfNone();
    } else {
      var init, last := s[..|s| - 1], s[|s| - 1];
      OfAll(init, f, g);
      OfNext(init, last);
      assert s == init + [last] && last in s;
    }
  }

  lemma {:induction false} OfInOrder(candidates: seq<Mutation>, f: Family)
    ensures Subsequence(Of(candidates, f), candidates)
  {
    if candidates == [] {
      assert Picks(Of(candidates, f), candidates, []);
    } else {
      var before, last := candidates[..|candidates| - 1], candidates[|candidates| - 1];
      OfInOrder(before, f);
      SubsequenceNext(Of(before, f), before, last);
      assert candidates == before + [last] && Of(before, f) + [] == Of(before, f);
    }
  }
}
