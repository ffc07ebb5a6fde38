// Decision rules over a normalized output, as the JSON they arrive as. A rule that cannot be evaluated
// holds the image; evaluation stops early; the question is whether stopping early is ever wrong.

module Decisions {
  import opened Wrappers

  /** A JSON value. A mapping lists each key once. */
  datatype Value =
    | Null | Bool(flag: bool) | Num(number: real) | Str(text: string)
    | List(items: seq<Value>) | Dict(entries: seq<(string, Value)>)

  /** What a path finds in the document: nothing to find by, or the matched values in order. */
  datatype Lookup = Broken | Found(values: seq<Value>)

  type Document = string -> Lookup

  function KeyAt(entries: seq<(string, Value)>, key: string): (i: int)
    ensures -1 <= i < |entries| && (i >= 0 ==> entries[i].0 == key)
    ensures i == -1 ==> forall j :: 0 <= j < |entries| ==> entries[j].0 != key
  {
    if entries == [] then -1
    else if entries[|entries| - 1].0 == key then |entries| - 1
    else KeyAt(entries[..|entries| - 1], key)
  }

  predicate Has(v: Value, key: string) {
    v.Dict? && KeyAt(v.entries, key) >= 0
  }

  function Field(v: Value, key: string): (r: Value)
    ensures Has(v, key) ==> r < v
  {
    if Has(v, key) then v.entries[KeyAt(v.entries, key)].1 else Null
  }

  // -- comparing values --------------------------------------------------------------------------

  /** Equality, under which a flag equals the number it counts as. */
  predicate Equal(a: Value, b: Value)
    decreases a
  {
    if AsNumber(a).Some? && AsNumber(b).Some? then AsNumber(a) == AsNumber(b)
    else if a.List? && b.List? then |a.items| == |b.items| && forall i :: 0 <= i < |a.items| ==> Equal(a.items[i], b.items[i])
    else if a.Dict? && b.Dict? then
      && |a.entries| == |b.entries|
      && forall i :: 0 <= i < |a.entries| ==> Has(b, a.entries[i].0) && Equal(a.entries[i].1, Field(b, a.entries[i].0))
    else a == b && !a.List? && !a.Dict?
  }

  function AsNumber(v: Value): Option<real> {
    match v
    case Bool(flag) => Some(if flag then 1.0 else 0.0)
    case Num(number) => Some(number)
    case _ => None
  }

  /** A real number; a flag is not one here. */
  function Numeric(v: Value): Option<real> {
    if v.Num? then Some(v.number) else None
  }

  predicate Truthy(v: Value) {
    match v
    case Null => false
    case Bool(flag) => flag
    case Num(number) => number != 0.0
    case Str(text) => text != ""
    case List(items) => items != []
    case Dict(entries) => entries != []
  }

  predicate Compares(op: string) {
    op in {">=", ">", "<=", "<", "==", "!="}
  }

  /** One comparison; None when an ordering is asked of something that is not a number. */
  function Compare(observed: Value, op: string, expected: Value): Option<bool> {
    if op == "==" then Some(Equal(observed, expected))
    else if op == "!=" then Some(!Equal(observed, expected))
    else if Numeric(observed).None? || Numeric(expected).None? then None
    else
      var left, right := Numeric(observed).value, Numeric(expected).value;
      Some(if op == ">=" then left >= right else if op == ">" then left > right else if op == "<=" then left <= right else left < right)
  }

  // -- what a comparison claims ------------------------------------------------------------------

  /** Whether a comparison claims anything: an ordering of something that is not a number does not. */
  predicate Meaningful(observed: Value, op: string, expected: Value) {
    op in {"==", "!="} || (observed.Num? && expected.Num?)
  }

  /** Which comparisons hold of two numbers, by the sign of what is left of the first without the second. */
  predicate Ordered(op: string, difference: real) {
    || (difference < 0.0 && op in {"<", "<="})
    || (difference == 0.0 && op in {"<=", ">="})
    || (difference > 0.0 && op in {">", ">="})
  }

  /** The claim of one comparison. */
  predicate Satisfies(observed: Value, op: string, expected: Value) {
    if op in {"==", "!="} then Equal(observed, expected) == (op == "==")
    else observed.Num? && expected.Num? && Ordered(op, observed.number - expected.number)
  }

  /** A comparison answers what it claims, and has no answer exactly when it claims nothing. */
  lemma ComparesAsClaimed(observed: Value, op: string, expected: Value)
    requires Compares(op)
    ensures Compare(observed, op, expected).Some? <==> Meaningful(observed, op, expected)
    ensures Compare(observed, op, expected) == Some(true) <==> Meaningful(observed, op, expected) && Satisfies(observed, op, expected)
    ensures Compare(observed, op, expected) == Some(false) <==> Meaningful(observed, op, expected) && !Satisfies(observed, op, expected)
  {
    hide Equal;
    TrueOrFalse(Compare(observed, op, expected));
  }

  /** Between two numbers the orderings are those of the reals; whatever is compared, one of `==` and `!=`
      holds and not the other. */
  lemma ClaimsAreTheOrders(x: real, y: real, observed: Value, expected: Value)
    ensures Satisfies(Num(x), ">=", Num(y)) <==> x >= y
    ensures Satisfies(Num(x), ">", Num(y)) <==> x > y
    ensures Satisfies(Num(x), "<=", Num(y)) <==> x <= y
    ensures Satisfies(Num(x), "<", Num(y)) <==> x < y
    ensures Satisfies(Num(x), "==", Num(y)) <==> x == y
    ensures Satisfies(observed, "==", expected) <==> !Satisfies(observed, "!=", expected)
  {
  }

  lemma TrueOrFalse(answer: Option<bool>)
    ensures answer.Some? ==> answer == Some(answer == Some(true))
  {
    if answer.Some? {
      assert answer == Some(answer.value);
      if !answer.value { assert answer == Some(false) != Some(true); }
    }
  }

  // -- evaluation --------------------------------------------------------------------------------

  /** A place in a rule: which child of which connective, from the top. */
  type Where = seq<(string, nat)>

  /** What decided an answer. */
  datatype Basis = Leaf(where: Where) | NoneMatched(where: Where, connective: string, count: nat)

  datatype Verdict = Judged(passed: bool, basis: Basis) | Unevaluable(where: Where)

  /** The matches of a path, if it can be applied. */
  function Matches(document: Document, path: Value): Option<seq<Value>> {
    if !path.Str? || path.text == "" then None
    else match document(path.text)
      case Broken => None
      case Found(values) => Some(values)
  }

  /** The claim of a leaf as a whole: something is found, nothing is, enough is, or all that is found
      compares as asked and something is found. */
  predicate LeafHolds(document: Document, e: Value) {
    var op, found, expected := Field(e, "op"), Matches(document, Field(e, "path")), Field(e, "value");
    op.Str? && found.Some? &&
    if found.value == [] then op.text == "absent"
    else
      || op.text == "exists"
      || (op.text == "count>=" && expected.Num? && !(expected.number > |found.value| as real))
      || (Compares(op.text) && forall k :: 0 <= k < |found.value| ==> Satisfies(found.value[k], op.text, expected))
  }

  /** Compare the matches one after another, up to the first that fails or cannot be compared. */
  function CompareAll(found: seq<Value>, op: string, expected: Value): Option<bool>
    decreases |found|
  {
    if found == [] then Some(true)
    else
      var first := Compare(found[0], op, expected);
      if first == Some(true) then CompareAll(found[1..], op, expected) else first
  }

  function EvaluateLeaf(document: Document, e: Value, where: Where, failOnEmpty: bool): Verdict {
    var op, path, expected := Field(e, "op"), Field(e, "path"), Field(e, "value");
    if !op.Str? || !(Compares(op.text) || op.text in {"exists", "absent", "count>="}) then Unevaluable(where)
    else
      var found := Matches(document, path);
      if found.None? then Unevaluable(where)
      else if op.text == "exists" then Judged(found.value != [], Leaf(where))
      else if op.text == "absent" then Judged(found.value == [], Leaf(where))
      else if found.value == [] then (if failOnEmpty then Judged(false, Leaf(where)) else Unevaluable(where))
      else if op.text == "count>=" then
        (if Numeric(expected).None? then Unevaluable(where)
         else Judged(|found.value| as real >= Numeric(expected).value, Leaf(where)))
      else
        var all := CompareAll(found.value, op.text, expected);
        if all.None? then Unevaluable(where) else Judged(all.value, Leaf(where))
  }

  /** The connective an expression groups by, if it groups. */
  function Connective(e: Value): Option<string> {
    if Has(e, "all") then Some("all") else if Has(e, "any") then Some("any") else None
  }

  /** The children of a group, if it is a non-empty list. */
  function Children(e: Value, connective: string): Option<seq<Value>>
    ensures Has(e, connective) ==> (var c := Children(e, connective); c.Some? ==> c.value != [] && forall k :: 0 <= k < |c.value| ==> c.value[k] < e)
  {
    var v := Field(e, connective);
    if v.List? && v.items != [] then Some(v.items) else None
  }

  function Evaluate(document: Document, e: Value, where: Where, failOnEmpty: bool): Verdict
    decreases e, 1, 0
  {
    if !e.Dict? then Unevaluable(where)
    else if Connective(e).None? then EvaluateLeaf(document, e, where, failOnEmpty)
    else
      var connective := Connective(e).value;
      var children := Children(e, connective);
      if children.None? then Unevaluable(where)
      else EvaluateFrom(document, e, connective, children.value, 0, where, failOnEmpty)
  }

  /** The children from the k-th on, up to the one that decides. */
  function EvaluateFrom(document: Document, e: Value, connective: string, children: seq<Value>, k: nat,
                        where: Where, failOnEmpty: bool): Verdict
    requires k <= |children| && forall i :: 0 <= i < |children| ==> children[i] < e
    decreases e, 0, |children| - k
  {
    if k == |children| then Judged(connective == "all", NoneMatched(where, connective, |children|))
    else
      var child := Evaluate(document, children[k], where + [(connective, k)], failOnEmpty);
      if child.Unevaluable? then child
      else if connective == "all" && !child.passed then child
      else if connective == "any" && child.passed then child
      else EvaluateFrom(document, e, connective, children, k + 1, where, failOnEmpty)
  }

  // -- classical truth ---------------------------------------------------------------------------

  /** A basic statement of a rule: one comparison with one match, or a leaf or malformed part as a whole. */
  datatype Atom = Whole(where: Where) | Match(where: Where, k: nat)

  type Assignment = Atom -> bool

  /** Whether a leaf is decided match by match. */
  predicate PerMatch(document: Document, e: Value) {
    var op, found := Field(e, "op"), Matches(document, Field(e, "path"));
    op.Str? && Compares(op.text) && found.Some? && found.value != []
  }

  /** The value of a rule when every basic statement in it has a truth value: groups mean what they say,
      and a comparison with several matches is a claim about all of them. */
  predicate Truth(document: Document, e: Value, where: Where, a: Assignment)
    decreases e
  {
    if !e.Dict? then a(Whole(where))
    else if Connective(e).None? then
      (if PerMatch(document, e) then
         forall k :: 0 <= k < |Matches(document, Field(e, "path")).value| ==> a(Match(where, k))
       else a(Whole(where)))
    else
      var connective := Connective(e).value;
      var children := Children(e, connective);
      if children.None? then a(Whole(where))
      else if connective == "all" then
        forall k :: 0 <= k < |children.value| ==> Truth(document, children.value[k], where + [(connective, k)], a)
      else
        exists k :: 0 <= k < |children.value| && Truth(document, children.value[k], where + [(connective, k)], a)
  }

  /** The first match that cannot be compared, all before it comparing true. */
  predicate Incomparable(found: seq<Value>, op: string, expected: Value, k: nat) {
    && k < |found| && !Meaningful(found[k], op, expected)
    && forall j :: 0 <= j < k ==> Meaningful(found[j], op, expected) && Satisfies(found[j], op, expected)
  }

  /** A leaf that has no answer: an unknown comparison, a path that cannot be applied, nothing found where
      something must be, a count against no number, or a match that cannot be compared. */
  ghost predicate LeafBroken(document: Document, e: Value, failOnEmpty: bool) {
    var op, found := Field(e, "op"), Matches(document, Field(e, "path"));
    || !op.Str? || op.text !in {">=", ">", "<=", "<", "==", "!=", "exists", "absent", "count>="}
    || found.None?
    || (op.text !in {"exists", "absent"} && found.value == [] && !failOnEmpty)
    || (op.text == "count>=" && found.value != [] && !Field(e, "value").Num?)
    || (Compares(op.text) && exists k: nat :: Incomparable(found.value, op.text, Field(e, "value"), k))
  }

  /** A group that lists children under `all` means each of them, whatever else it holds; one that lists them
      under `any` instead means at least one. */
  lemma GroupsMean(document: Document, entries: seq<(string, Value)>, where: Where, a: Assignment)
    ensures var e := Dict(entries);
      && (Has(e, "all") && Field(e, "all").List? && Field(e, "all").items != [] ==>
            (Truth(document, e, where, a)
             <==> forall k :: 0 <= k < |Field(e, "all").items| ==> Truth(document, Field(e, "all").items[k], where + [("all", k)], a)))
      && (!Has(e, "all") && Has(e, "any") && Field(e, "any").List? && Field(e, "any").items != [] ==>
            (Truth(document, e, where, a)
             <==> exists k :: 0 <= k < |Field(e, "any").items| && Truth(document, Field(e, "any").items[k], where + [("any", k)], a)))
  {
    hide KeyAt;
  }

  /** An assignment that gives every statement the evaluation did look at the value it found. It may say
      anything about the rest: what was skipped, and what could not be evaluated. */
  ghost predicate AgreesOnLeaf(document: Document, e: Value, where: Where, failOnEmpty: bool, a: Assignment) {
    if PerMatch(document, e) then
      forall k :: 0 <= k < Looked(Matches(document, Field(e, "path")).value, Field(e, "op").text, Field(e, "value")) ==>
        a(Match(where, k)) == Satisfies(Matches(document, Field(e, "path")).value[k], Field(e, "op").text, Field(e, "value"))
    else !LeafBroken(document, e, failOnEmpty) ==> a(Whole(where)) == LeafHolds(document, e)
  }

  /** How many matches a comparison has to look at: up to and including the first it does not hold of. */
  function Looked(found: seq<Value>, op: string, expected: Value): (n: nat)
    ensures n <= |found|
    ensures forall k :: 0 <= k < n ==> Meaningful(found[k], op, expected)
    decreases |found|
  {
    if found == [] || !Meaningful(found[0], op, expected) then 0
    else if !Satisfies(found[0], op, expected) then 1
    else 1 + Looked(found[1..], op, expected)
  }

  ghost predicate Agrees(document: Document, e: Value, where: Where, failOnEmpty: bool, a: Assignment)
    decreases e, 1, 0
  {
    if !e.Dict? then true
    else if Connective(e).None? then AgreesOnLeaf(document, e, where, failOnEmpty, a)
    else
      var connective := Connective(e).value;
      var children := Children(e, connective);
      children.None? || AgreesFrom(document, e, connective, children.value, 0, where, failOnEmpty, a)
  }

  ghost predicate AgreesFrom(document: Document, e: Value, connective: string, children: seq<Value>, k: nat,
                             where: Where, failOnEmpty: bool, a: Assignment)
    requires k <= |children| && forall i :: 0 <= i < |children| ==> children[i] < e
    decreases e, 0, |children| - k
  {
    if k == |children| then true
    else
      Agrees(document, children[k], where + [(connective, k)], failOnEmpty, a) &&
      var child := Evaluate(document, children[k], where + [(connective, k)], failOnEmpty);
      (child.Judged? && child.passed == (connective == "all") ==>
        AgreesFrom(document, e, connective, children, k + 1, where, failOnEmpty, a))
  }

  /** Comparing the matches one after another settles the claim about all of them, when it is settled. */
  lemma {:induction false} MatchesDecide(found: seq<Value>, op: string, expected: Value)
    requires Compares(op)
    ensures var n := Looked(found, op, expected);
            match CompareAll(found, op, expected)
            case None => n < |found| && Incomparable(found, op, expected, n)
            case Some(true) => n == |found| && forall k :: 0 <= k < n ==> Satisfies(found[k], op, expected)
            case Some(false) => n >= 1 && !Satisfies(found[n - 1], op, expected)
    decreases |found|
  {
    hide Compare, Satisfies, Meaningful;
    if found != [] {
      ComparesAsClaimed(found[0], op, expected);
      TrueOrFalse(Compare(found[0], op, expected));
      if Compare(found[0], op, expected) == Some(true) {
        MatchesDecide(found[1..], op, expected);
      }
    }
  }

  /** Comparing stops at the first match that cannot be compared, when every one before it compares true. */
  lemma StopsAtIncomparable(found: seq<Value>, op: string, expected: Value)
    requires Compares(op)
    ensures CompareAll(found, op, expected).None? <==> exists k: nat :: Incomparable(found, op, expected, k)
  {
    hide CompareAll, Satisfies, Meaningful;
    MatchesDecide(found, op, expected);
    TrueOrFalse(CompareAll(found, op, expected));
    if CompareAll(found, op, expected) == Some(false) {
      assert forall k: nat :: Incomparable(found, op, expected, k) ==> k >= Looked(found, op, expected);
    }
  }

  /** A leaf has no answer exactly when it is broken. */
  lemma BrokenLeafExactly(document: Document, e: Value, where: Where, failOnEmpty: bool)
    ensures EvaluateLeaf(document, e, where, failOnEmpty) == Unevaluable(where) <==> LeafBroken(document, e, failOnEmpty)
    ensures EvaluateLeaf(document, e, where, failOnEmpty).Judged? <==> !LeafBroken(document, e, failOnEmpty)
  {
    hide CompareAll, Compare, Matches, Field, Incomparable;
    var op, found := Field(e, "op"), Matches(document, Field(e, "path"));
    if op.Str? && Compares(op.text) && found.Some? {
      StopsAtIncomparable(found.value, op.text, Field(e, "value"));
      NothingIncomparable(op.text, Field(e, "value"));
    }
  }

  lemma NothingIncomparable(op: string, expected: Value)
    ensures forall k: nat :: !Incomparable([], op, expected, k)
  {
  }

  lemma LeafIsTruth(document: Document, e: Value, where: Where, failOnEmpty: bool, a: Assignment)
    requires e.Dict? && Connective(e).None? && EvaluateLeaf(document, e, where, failOnEmpty).Judged?
    requires AgreesOnLeaf(document, e, where, failOnEmpty, a)
    ensures Truth(document, e, where, a) == EvaluateLeaf(document, e, where, failOnEmpty).passed
  {
    hide CompareAll, Satisfies, Matches, Field, LeafBroken, Incomparable, Connective;
    BrokenLeafExactly(document, e, where, failOnEmpty);
    if PerMatch(document, e) {
      var found, op, expected := Matches(document, Field(e, "path")).value, Field(e, "op").text, Field(e, "value");
      MatchesDecide(found, op, expected);
      TrueOrFalse(CompareAll(found, op, expected));
      if CompareAll(found, op, expected) == Some(false) {
        assert !a(Match(where, Looked(found, op, expected) - 1));
      }
    }
  }

  /** Whenever evaluation returns, its answer is the classical value of the rule, whatever the truth of the
      parts it skipped or could not evaluate. */
  lemma {:induction false} StoppingEarlyIsRight(document: Document, e: Value, where: Where, failOnEmpty: bool, a: Assignment)
    requires Evaluate(document, e, where, failOnEmpty).Judged? && Agrees(document, e, where, failOnEmpty, a)
    ensures Truth(document, e, where, a) == Evaluate(document, e, where, failOnEmpty).passed
    decreases e, 1, 0
  {
    if Connective(e).None? {
      LeafIsTruth(document, e, where, failOnEmpty, a);
    } else {
      var connective := Connective(e).value;
      var children := Children(e, connective).value;
      GroupIsTruth(document, e, connective, children, 0, where, failOnEmpty, a);
    }
  }

  lemma FromNext(document: Document, e: Value, c: string, children: seq<Value>, k: nat, where: Where, failOnEmpty: bool)
    requires k < |children| && (forall i :: 0 <= i < |children| ==> children[i] < e) && c in {"all", "any"}
    ensures var child := Evaluate(document, children[k], where + [(c, k)], failOnEmpty);
            EvaluateFrom(document, e, c, children, k, where, failOnEmpty)
            == if child.Judged? && child.passed == (c == "all") then EvaluateFrom(document, e, c, children, k + 1, where, failOnEmpty) else child
  {
  }

  lemma AgreesNext(document: Document, e: Value, c: string, children: seq<Value>, k: nat, where: Where, failOnEmpty: bool, a: Assignment)
    requires k < |children| && (forall i :: 0 <= i < |children| ==> children[i] < e) && c in {"all", "any"}
    ensures AgreesFrom(document, e, c, children, k, where, failOnEmpty, a)
      <==> Agrees(document, children[k], where + [(c, k)], failOnEmpty, a)
           && var child := Evaluate(document, children[k], where + [(c, k)], failOnEmpty);
              (child.Judged? && child.passed == (c == "all") ==> AgreesFrom(document, e, c, children, k + 1, where, failOnEmpty, a))
  {
  }

  /** What the children from the k-th on come to together. */
  predicate TruthFrom(document: Document, children: seq<Value>, c: string, k: nat, where: Where, a: Assignment) {
    if c == "all" then forall i :: k <= i < |children| ==> Truth(document, children[i], where + [(c, i)], a)
    else exists i :: k <= i < |children| && Truth(document, children[i], where + [(c, i)], a)
  }

  lemma TruthNext(document: Document, children: seq<Value>, c: string, k: nat, where: Where, a: Assignment)
    ensures k < |children| ==> (TruthFrom(document, children, c, k, where, a) <==>
              if Truth(document, children[k], where + [(c, k)], a) == (c == "all") then TruthFrom(document, children, c, k + 1, where, a)
              else c != "all")
    ensures k >= |children| ==> (TruthFrom(document, children, c, k, where, a) <==> c == "all")
  {
    hide Truth;
  }

  /** From the k-th child on, the group's answer is that of the children left. */
  lemma {:induction false} GroupIsTruth(document: Document, e: Value, connective: string, children: seq<Value>, k: nat,
                                        where: Where, failOnEmpty: bool, a: Assignment)
    requires k <= |children| && (forall i :: 0 <= i < |children| ==> children[i] < e) && connective in {"all", "any"}
    requires EvaluateFrom(document, e, connective, children, k, where, failOnEmpty).Judged?
    requires AgreesFrom(document, e, connective, children, k, where, failOnEmpty, a)
    ensures EvaluateFrom(document, e, connective, children, k, where, failOnEmpty).passed == TruthFrom(document, children, connective, k, where, a)
    decreases e, 0, |children| - k
  {
    hide Evaluate, EvaluateFrom, Agrees, AgreesFrom, Truth, TruthFrom;
    TruthNext(document, children, connective, k, where, a);
    if k < |children| {
      FromNext(document, e, connective, children, k, where, failOnEmpty);
      AgreesNext(document, e, connective, children, k, where, failOnEmpty, a);
      var child := Evaluate(document, children[k], where + [(connective, k)], failOnEmpty);
      StoppingEarlyIsRight(document, children[k], where + [(connective, k)], failOnEmpty, a);
      if child.passed == (connective == "all") {
        GroupIsTruth(document, e, connective, children, k + 1, where, failOnEmpty, a);
      }
    } else {
      FromEnd(document, e, connective, children, where, failOnEmpty);
    }
  }

  lemma FromEnd(document: Document, e: Value, c: string, children: seq<Value>, where: Where, failOnEmpty: bool)
    requires forall i :: 0 <= i < |children| ==> children[i] < e
    ensures EvaluateFrom(document, e, c, children, |children|, where, failOnEmpty) == Judged(c == "all", NoneMatched(where, c, |children|))
  {
  }

  // -- what is actually so -----------------------------------------------------------------------

  /** The part of a rule at a place. */
  function Navigate(root: Value, where: Where): Option<Value> {
    if where == [] then Some(root)
    else
      var up, step := Navigate(root, where[..|where| - 1]), where[|where| - 1];
      if up.Some? && up.value.Dict? && Connective(up.value) == Some(step.0) && Children(up.value, step.0).Some?
         && step.1 < |Children(up.value, step.0).value|
      then Some(Children(up.value, step.0).value[step.1]) else None
  }

  /** Every statement's own value: what the comparisons claim of the document, evaluated or not. */
  function Actual(document: Document, root: Value): Assignment {
    (atom: Atom) =>
      var e := Navigate(root, atom.where);
      e.Some? && e.value.Dict? && Connective(e.value).None? &&
      match atom
      case Whole(_) => LeafHolds(document, e.value)
      case Match(_, k) =>
        PerMatch(document, e.value) && k < |Matches(document, Field(e.value, "path")).value| &&
        Satisfies(Matches(document, Field(e.value, "path")).value[k], Field(e.value, "op").text, Field(e.value, "value"))
  }

  lemma LeafAgrees(document: Document, root: Value, e: Value, where: Where, failOnEmpty: bool)
    requires Navigate(root, where) == Some(e) && e.Dict? && Connective(e).None?
    ensures AgreesOnLeaf(document, e, where, failOnEmpty, Actual(document, root))
  {
    hide Satisfies, Matches, Field, LeafHolds, LeafBroken, Connective, Navigate;
    assert Whole(where).where == where && forall k :: Match(where, k).where == where;
  }

  /** What is actually so is one of the assignments the evaluation is right under. */
  lemma {:induction false} ActualAgrees(document: Document, root: Value, e: Value, where: Where, failOnEmpty: bool)
    requires Navigate(root, where) == Some(e)
    ensures Agrees(document, e, where, failOnEmpty, Actual(document, root))
    decreases e, 1, 0
  {
    if e.Dict? {
      if Connective(e).None? {
        LeafAgrees(document, root, e, where, failOnEmpty);
      } else if Children(e, Connective(e).value).Some? {
        ActualAgreesFrom(document, root, e, Connective(e).value, Children(e, Connective(e).value).value, 0, where, failOnEmpty);
      }
    }
  }

  lemma {:induction false} ActualAgreesFrom(document: Document, root: Value, e: Value, connective: string, children: seq<Value>, k: nat,
                                            where: Where, failOnEmpty: bool)
    requires Navigate(root, where) == Some(e) && e.Dict? && Connective(e) == Some(connective) && connective in {"all", "any"}
    requires Children(e, connective) == Some(children) && k <= |children| && forall i :: 0 <= i < |children| ==> children[i] < e
    ensures AgreesFrom(document, e, connective, children, k, where, failOnEmpty, Actual(document, root))
    decreases e, 0, |children| - k
  {
    if k < |children| {
      NavigateChild(root, e, connective, children, k, where);
      hide Agrees, Actual, Evaluate, Navigate, Children, Connective;
      ActualAgrees(document, root, children[k], where + [(connective, k)], failOnEmpty);
      ActualAgreesFrom(document, root, e, connective, children, k + 1, where, failOnEmpty);
      AgreesNext(document, e, connective, children, k, where, failOnEmpty, Actual(document, root));
    }
  }

  // -- what holds an image -----------------------------------------------------------------------

  /** The part of an expression that a place below it names. */
  function PartAt(e: Value, q: Where): Option<Value>
    decreases |q|
  {
    if q == [] then Some(e)
    else if e.Dict? && Connective(e) == Some(q[0].0) && Children(e, q[0].0).Some? && q[0].1 < |Children(e, q[0].0).value|
    then PartAt(Children(e, q[0].0).value[q[0].1], q[1..])
    else None
  }

  /** A part that is broken itself, whatever is below it. */
  ghost predicate PartBroken(document: Document, e: Value, failOnEmpty: bool) {
    !e.Dict? || (if Connective(e).None? then LeafBroken(document, e, failOnEmpty) else Children(e, Connective(e).value).None?)
  }

  /** A broken part is reached at this place below `e`. */
  ghost predicate Stuck(document: Document, e: Value, where: Where, failOnEmpty: bool, a: Assignment, q: Where)
    decreases e, 1
  {
    Reached(document, e, where, failOnEmpty, a, q) && PartAt(e, q).Some? && PartBroken(document, PartAt(e, q).value, failOnEmpty)
  }

  /** A place is reached when every part before it, in each group on the way, has an answer that leaves the
      group open: nothing broken is reached in it, and it is true under `all`, false under `any`. */
  ghost predicate Reached(document: Document, e: Value, where: Where, failOnEmpty: bool, a: Assignment, q: Where)
    decreases e, 0
  {
    q == [] ||
    (PartAt(e, q[..1]).Some?
     && var children := Children(e, q[0].0).value;
        && (forall i :: 0 <= i < q[0].1 ==> LeavesOpen(document, children[i], where + [(q[0].0, i)], failOnEmpty, a, q[0].0))
        && Reached(document, children[q[0].1], where + [q[0]], failOnEmpty, a, q[1..]))
  }

  ghost predicate LeavesOpen(document: Document, e: Value, where: Where, failOnEmpty: bool, a: Assignment, connective: string)
    decreases e, 2
  {
    (forall q :: !Stuck(document, e, where, failOnEmpty, a, q)) && Truth(document, e, where, a) == (connective == "all")
  }

  /** Where a place in a group leads. */
  lemma StuckBelow(document: Document, e: Value, children: seq<Value>, where: Where, failOnEmpty: bool, a: Assignment, c: string, k: nat, q: Where)
    requires e.Dict? && Connective(e) == Some(c) && Children(e, c) == Some(children) && k < |children|
    ensures Stuck(document, e, where, failOnEmpty, a, [(c, k)] + q)
      <==> Stuck(document, children[k], where + [(c, k)], failOnEmpty, a, q)
           && forall i :: 0 <= i < k ==> LeavesOpen(document, children[i], where + [(c, i)], failOnEmpty, a, c)
  {
    hide PartBroken, LeavesOpen, Field, Children;
    var p: Where := [(c, k)] + q;
    var head: Where := p[..1];
    assert head == [(c, k)] && head[1..] == [] && p[1..] == q && p[0] == (c, k);
    assert PartAt(children[k], head[1..]) == Some(children[k]);
    assert PartAt(e, head) == Some(children[k]);
    assert PartAt(e, p) == PartAt(children[k], q);
    assert Reached(document, e, where, failOnEmpty, a, p)
      <==> Reached(document, children[k], where + [(c, k)], failOnEmpty, a, q)
           && forall i :: 0 <= i < k ==> LeavesOpen(document, children[i], where + [(c, i)], failOnEmpty, a, c);
  }

  /** A place below a group starts with one of its children. */
  lemma StuckInGroup(document: Document, e: Value, children: seq<Value>, where: Where, failOnEmpty: bool, a: Assignment, c: string, q: Where)
    requires e.Dict? && Connective(e) == Some(c) && Children(e, c) == Some(children)
    requires Stuck(document, e, where, failOnEmpty, a, q)
    ensures q != [] && q[0].0 == c && q[0].1 < |children| && q == [(c, q[0].1)] + q[1..]
  {
    hide LeafBroken;
  }

  /** The k-th child's stand, when all before it leave the group open. */
  ghost predicate OpenUpTo(document: Document, children: seq<Value>, where: Where, failOnEmpty: bool, a: Assignment, c: string, k: nat)
    requires k <= |children|
  {
    forall i :: 0 <= i < k ==> LeavesOpen(document, children[i], where + [(c, i)], failOnEmpty, a, c)
  }

  lemma {:induction false} HeldBelow(document: Document, e: Value, where: Where, failOnEmpty: bool)
    ensures var v := Evaluate(document, e, where, failOnEmpty); v.Unevaluable? ==> where <= v.where
    decreases e, 1, 0
  {
    if e.Dict? && Connective(e).Some? && Children(e, Connective(e).value).Some? {
      HeldFromBelow(document, e, Connective(e).value, Children(e, Connective(e).value).value, 0, where, failOnEmpty);
    }
  }

  lemma {:induction false} HeldFromBelow(document: Document, e: Value, c: string, children: seq<Value>, k: nat, where: Where, failOnEmpty: bool)
    requires k <= |children| && forall i :: 0 <= i < |children| ==> children[i] < e
    ensures var v := EvaluateFrom(document, e, c, children, k, where, failOnEmpty);
            v.Unevaluable? ==> exists i :: k <= i < |children| && where + [(c, i)] <= v.where
    decreases e, 0, |children| - k
  {
    if k < |children| {
      HeldBelow(document, children[k], where + [(c, k)], failOnEmpty);
      HeldFromBelow(document, e, c, children, k + 1, where, failOnEmpty);
    }
  }

  lemma HeldAtOnce(document: Document, e: Value, where: Where, failOnEmpty: bool, a: Assignment)
    requires !(e.Dict? && Connective(e).Some? && Children(e, Connective(e).value).Some?)
    ensures var v := Evaluate(document, e, where, failOnEmpty);
      && (forall q :: v == Unevaluable(where + q) <==> Stuck(document, e, where, failOnEmpty, a, q))
      && (v.Judged? <==> forall q :: !Stuck(document, e, where, failOnEmpty, a, q))
  {
    hide EvaluateLeaf, LeafBroken, Children, Field;
    var v := Evaluate(document, e, where, failOnEmpty);
    if e.Dict? && Connective(e).None? { BrokenLeafExactly(document, e, where, failOnEmpty); }
    assert v == Unevaluable(where) || v.Judged? by { LeafHeldHere(document, e, where, failOnEmpty); }
    forall q ensures v == Unevaluable(where + q) <==> Stuck(document, e, where, failOnEmpty, a, q) {
      if q == [] { assert where + q == where; } else { assert |where + q| > |where|; }
    }
    assert where + [] == where;
    assert Stuck(document, e, where, failOnEmpty, a, []) <==> PartBroken(document, e, failOnEmpty);
  }

  lemma LeafHeldHere(document: Document, e: Value, where: Where, failOnEmpty: bool)
    ensures var v := EvaluateLeaf(document, e, where, failOnEmpty); v == Unevaluable(where) || v.Judged?
  {
  }

  /** Two places that part at one step are different. */
  lemma Apart(where: Where, c: string, i: nat, j: nat, q: Where, at: Where)
    requires where + [(c, j)] <= at
    ensures at == where + ([(c, i)] + q) ==> i == j
  {
    if at == where + ([(c, i)] + q) {
      assert at[|where|] == (where + [(c, j)])[|where|] == (c, j);
      assert at[|where|] == (c, i);
    }
  }

  /** The same for a group, from the k-th child on, when those before it leave it open. */
  lemma {:induction false} HeldFrom(document: Document, root: Value, e: Value, c: string, children: seq<Value>, k: nat, where: Where, failOnEmpty: bool)
    requires Navigate(root, where) == Some(e) && e.Dict? && Connective(e) == Some(c) && Children(e, c) == Some(children)
    requires k <= |children| && (forall i :: 0 <= i < |children| ==> children[i] < e) && c in {"all", "any"}
    requires OpenUpTo(document, children, where, failOnEmpty, Actual(document, root), c, k)
    ensures HeldInGroup(document, e, c, children, where, failOnEmpty, Actual(document, root),
                        EvaluateFrom(document, e, c, children, k, where, failOnEmpty))
    decreases e, 0, |children| - k
  {
    hide Actual, Evaluate, Stuck, Children, Connective, Truth, HeldInGroup, Field;
    var a := Actual(document, root);
    if k < |children| {
      var at := where + [(c, k)];
      NavigateChild(root, e, c, children, k, where);
      FromNext(document, e, c, children, k, where, failOnEmpty);
      HeldExactly(document, root, children[k], at, failOnEmpty);
      var child := Evaluate(document, children[k], at, failOnEmpty);
      if child.Judged? {
        ActualAgrees(document, root, children[k], at, failOnEmpty);
        StoppingEarlyIsRight(document, children[k], at, failOnEmpty, a);
        if child.passed == (c == "all") {
          OneMoreOpen(document, children, where, failOnEmpty, a, c, k);
          HeldFrom(document, root, e, c, children, k + 1, where, failOnEmpty);
        } else {
          DecidedHere(document, e, c, children, k, where, failOnEmpty, a, child);
        }
      } else {
        HeldBelow(document, children[k], at, failOnEmpty);
        HeldHere(document, e, c, children, k, where, failOnEmpty, a, child);
      }
    } else {
      NoneHeld(document, e, c, children, where, failOnEmpty, a, EvaluateFrom(document, e, c, children, k, where, failOnEmpty));
    }
  }

  /** An answer of a group says where it is held, if it is. */
  ghost predicate HeldInGroup(document: Document, e: Value, c: string, children: seq<Value>, where: Where, failOnEmpty: bool, a: Assignment, v: Verdict) {
    && (forall i: nat, q :: i < |children| ==>
          (v == Unevaluable(where + ([(c, i)] + q)) <==> Stuck(document, e, where, failOnEmpty, a, [(c, i)] + q)))
    && (v.Judged? <==> forall i: nat, q :: i < |children| ==> !Stuck(document, e, where, failOnEmpty, a, [(c, i)] + q))
  }

  lemma OneMoreOpen(document: Document, children: seq<Value>, where: Where, failOnEmpty: bool, a: Assignment, c: string, k: nat)
    requires k < |children| && OpenUpTo(document, children, where, failOnEmpty, a, c, k)
    requires Truth(document, children[k], where + [(c, k)], a) == (c == "all")
    requires forall q :: !Stuck(document, children[k], where + [(c, k)], failOnEmpty, a, q)
    ensures OpenUpTo(document, children, where, failOnEmpty, a, c, k + 1)
  {
    assert LeavesOpen(document, children[k], where + [(c, k)], failOnEmpty, a, c);
  }

  lemma NavigateChild(root: Value, e: Value, c: string, children: seq<Value>, k: nat, where: Where)
    requires Navigate(root, where) == Some(e) && e.Dict? && Connective(e) == Some(c) && Children(e, c) == Some(children) && k < |children|
    ensures Navigate(root, where + [(c, k)]) == Some(children[k])
  {
    assert (where + [(c, k)])[..|where|] == where;
  }

  lemma NoneHeld(document: Document, e: Value, c: string, children: seq<Value>, where: Where, failOnEmpty: bool, a: Assignment, v: Verdict)
    requires e.Dict? && Connective(e) == Some(c) && Children(e, c) == Some(children) && v.Judged?
    requires OpenUpTo(document, children, where, failOnEmpty, a, c, |children|)
    ensures HeldInGroup(document, e, c, children, where, failOnEmpty, a, v)
  {
    hide Stuck, Children, Connective, Truth;
    forall i: nat, q | i < |children| ensures !Stuck(document, e, where, failOnEmpty, a, [(c, i)] + q) {
      StuckBelow(document, e, children, where, failOnEmpty, a, c, i, q);
      assert LeavesOpen(document, children[i], where + [(c, i)], failOnEmpty, a, c);
    }
  }

  /** A child that decides keeps everything after it from being reached. */
  lemma DecidedHere(document: Document, e: Value, c: string, children: seq<Value>, k: nat, where: Where, failOnEmpty: bool, a: Assignment, v: Verdict)
    requires e.Dict? && Connective(e) == Some(c) && Children(e, c) == Some(children) && k < |children| && v.Judged?
    requires OpenUpTo(document, children, where, failOnEmpty, a, c, k)
    requires Truth(document, children[k], where + [(c, k)], a) != (c == "all")
    requires forall q :: !Stuck(document, children[k], where + [(c, k)], failOnEmpty, a, q)
    ensures HeldInGroup(document, e, c, children, where, failOnEmpty, a, v)
  {
    hide Stuck, Children, Connective, Truth;
    forall i: nat, q | i < |children| ensures !Stuck(document, e, where, failOnEmpty, a, [(c, i)] + q) {
      StuckBelow(document, e, children, where, failOnEmpty, a, c, i, q);
      if i < k {
        assert LeavesOpen(document, children[i], where + [(c, i)], failOnEmpty, a, c);
      } else if i > k {
        assert !LeavesOpen(document, children[k], where + [(c, k)], failOnEmpty, a, c);
      }
    }
  }

  /** A child that is held holds its group there. */
  lemma HeldHere(document: Document, e: Value, c: string, children: seq<Value>, k: nat, where: Where, failOnEmpty: bool, a: Assignment, v: Verdict)
    requires e.Dict? && Connective(e) == Some(c) && Children(e, c) == Some(children) && k < |children|
    requires v.Unevaluable? && where + [(c, k)] <= v.where
    requires OpenUpTo(document, children, where, failOnEmpty, a, c, k)
    requires forall q :: v == Unevaluable(where + [(c, k)] + q) <==> Stuck(document, children[k], where + [(c, k)], failOnEmpty, a, q)
    ensures HeldInGroup(document, e, c, children, where, failOnEmpty, a, v)
  {
    hide Stuck, Children, Connective, Truth;
    var rest := v.where[|where| + 1..];
    assert v.where == where + [(c, k)] + rest;
    assert !LeavesOpen(document, children[k], where + [(c, k)], failOnEmpty, a, c);
    forall i: nat, q | i < |children|
      ensures v == Unevaluable(where + ([(c, i)] + q)) <==> Stuck(document, e, where, failOnEmpty, a, [(c, i)] + q)
    {
      StuckBelow(document, e, children, where, failOnEmpty, a, c, i, q);
      Apart(where, c, i, k, q, v.where);
      assert where + ([(c, i)] + q) == where + [(c, i)] + q;
      if i < k {
        assert LeavesOpen(document, children[i], where + [(c, i)], failOnEmpty, a, c);
      }
    }
    assert where + [(c, k)] + rest == where + ([(c, k)] + rest);
  }

  /** A rule is held exactly at the first broken part that is reached, and judged exactly when none is. */
  lemma {:induction false} HeldExactly(document: Document, root: Value, e: Value, where: Where, failOnEmpty: bool)
    requires Navigate(root, where) == Some(e)
    ensures var v, a := Evaluate(document, e, where, failOnEmpty), Actual(document, root);
      && (forall q :: v == Unevaluable(where + q) <==> Stuck(document, e, where, failOnEmpty, a, q))
      && (v.Judged? <==> forall q :: !Stuck(document, e, where, failOnEmpty, a, q))
    decreases e, 1, 0
  {
    hide Stuck, EvaluateFrom, Actual, Children, Field;
    var a := Actual(document, root);
    if e.Dict? && Connective(e).Some? && Children(e, Connective(e).value).Some? {
      var c := Connective(e).value;
      var children := Children(e, c).value;
      HeldFrom(document, root, e, c, children, 0, where, failOnEmpty);
      HeldFromBelow(document, e, c, children, 0, where, failOnEmpty);
      HeldInWhole(document, e, c, children, where, failOnEmpty, a, Evaluate(document, e, where, failOnEmpty));
    } else {
      HeldAtOnce(document, e, where, failOnEmpty, a);
    }
  }

  lemma StartsInGroup(where: Where, c: string, i: nat, q: Where)
    requires where + [(c, i)] <= where + q
    ensures q != [] && q == [(c, i)] + q[1..]
  {
    assert q[0] == (where + q)[|where|] == (where + [(c, i)])[|where|] == (c, i);
  }

  lemma HeldInWhole(document: Document, e: Value, c: string, children: seq<Value>, where: Where, failOnEmpty: bool, a: Assignment, v: Verdict)
    requires e.Dict? && Connective(e) == Some(c) && Children(e, c) == Some(children)
    requires HeldInGroup(document, e, c, children, where, failOnEmpty, a, v)
    requires v.Unevaluable? ==> exists i :: 0 <= i < |children| && where + [(c, i)] <= v.where
    ensures forall q :: v == Unevaluable(where + q) <==> Stuck(document, e, where, failOnEmpty, a, q)
    ensures v.Judged? <==> forall q :: !Stuck(document, e, where, failOnEmpty, a, q)
  {
    hide Stuck, Children, Connective;
    forall q ensures v == Unevaluable(where + q) <==> Stuck(document, e, where, failOnEmpty, a, q) {
      if v == Unevaluable(where + q) {
        var i :| 0 <= i < |children| && where + [(c, i)] <= v.where;
        StartsInGroup(where, c, i, q);
      }
      if Stuck(document, e, where, failOnEmpty, a, q) { StuckInGroup(document, e, children, where, failOnEmpty, a, c, q); }
    }
    forall q | (forall i: nat, r :: i < |children| ==> !Stuck(document, e, where, failOnEmpty, a, [(c, i)] + r))
      ensures !Stuck(document, e, where, failOnEmpty, a, q)
    {
      if Stuck(document, e, where, failOnEmpty, a, q) { StuckInGroup(document, e, children, where, failOnEmpty, a, c, q); }
    }
  }

  /** A rule with no broken part at all is never held. */
  lemma SoundRulesAreJudged(document: Document, root: Value, e: Value, where: Where, failOnEmpty: bool)
    requires Navigate(root, where) == Some(e)
    requires forall q :: PartAt(e, q).Some? ==> !PartBroken(document, PartAt(e, q).value, failOnEmpty)
    ensures Evaluate(document, e, where, failOnEmpty).Judged?
  {
    hide Evaluate, Reached, PartBroken, Actual;
    HeldExactly(document, root, e, where, failOnEmpty);
  }

  // -- the decision ------------------------------------------------------------------------------

  datatype Outcome = Clear | Hold | Fail

  /** What a decision names as its reason. */
  datatype Reason = Pass | Failing(basis: Basis) | NotEvaluable

  datatype Decision = Decision(outcome: Outcome, passed: bool, confidence: Option<real>, threshold: Option<real>, reason: Reason)

  /** One outcome name of the rule set; None when it is not an outcome. */
  function OutcomeAt(rules: Value, key: string, fallback: Outcome): Option<Outcome> {
    if !Has(rules, key) then Some(fallback)
    else if Field(rules, key) == Str("CLEAR") then Some(Clear)
    else if Field(rules, key) == Str("HOLD") then Some(Hold)
    else if Field(rules, key) == Str("FAIL") then Some(Fail)
    else None
  }

  /** A number given literally or as a path; None when it cannot be resolved. */
  function ScalarAt(document: Document, spec: Value): Option<real> {
    if Numeric(spec).Some? then Numeric(spec)
    else
      var found := Matches(document, spec);
      if found.None? || found.value == [] then None else Numeric(found.value[0])
  }

  /** A configured number, if there is one; the outer None says it cannot be resolved. */
  function Reading(document: Document, rules: Value, key: string): Option<Option<real>> {
    if Field(rules, key) == Null then Some(None)
    else
      var r := ScalarAt(document, Field(rules, key));
      if r.None? then None else Some(r)
  }

  const HELD := Decision(Hold, false, None, None, NotEvaluable)

  /** Apply a bundle's decision rules to one document. */
  function Decide(document: Document, rules: Value): Decision {
    if !Has(rules, "pass") then HELD
    else
      var onPass, onFail := OutcomeAt(rules, "outcomeOnPass", Clear), OutcomeAt(rules, "outcomeOnFail", Hold);
      if onPass.None? || onFail.None? || onFail == Some(Clear) then HELD
      else
        var confidence, threshold := Reading(document, rules, "confidence"), Reading(document, rules, "threshold");
        if confidence.None? || threshold.None? then HELD
        else
          var v := Evaluate(document, Field(rules, "pass"), [], Truthy(Field(rules, "failOnEmpty")));
          if v.Unevaluable? then HELD
          else Decision(if v.passed then onPass.value else onFail.value, v.passed, confidence.value, threshold.value,
                        if v.passed then Pass else Failing(v.basis))
  }

  /** The image is cleared only when the pass rule is true: under every assignment that agrees with what
      was looked at, and so in fact. */
  lemma ClearIsEarned(document: Document, rules: Value, a: Assignment)
    requires Decide(document, rules).outcome == Clear
    requires Agrees(document, Field(rules, "pass"), [], Truthy(Field(rules, "failOnEmpty")), a)
    ensures Decide(document, rules).passed && Truth(document, Field(rules, "pass"), [], a)
    ensures Truth(document, Field(rules, "pass"), [], Actual(document, Field(rules, "pass")))
  {
    var e, foe := Field(rules, "pass"), Truthy(Field(rules, "failOnEmpty"));
    StoppingEarlyIsRight(document, e, [], foe, a);
    ActualAgrees(document, e, e, [], foe);
    StoppingEarlyIsRight(document, e, [], foe, Actual(document, e));
  }

  /** An outcome that is configured and is not one. */
  predicate NoOutcome(rules: Value, key: string) {
    Has(rules, key) && Field(rules, key) !in {Str("CLEAR"), Str("HOLD"), Str("FAIL")}
  }

  /** A number that is configured, and is neither given nor found first by its path. */
  predicate NoNumber(document: Document, rules: Value, key: string) {
    var spec := Field(rules, key);
    spec != Null && !spec.Num?
    && !(spec.Str? && spec.text != "" && document(spec.text).Found? && document(spec.text).values != [] && document(spec.text).values[0].Num?)
  }

  /** The pass rule holds a broken part that is reached. */
  ghost predicate PassStuck(document: Document, rules: Value) {
    var e, failOnEmpty := Field(rules, "pass"), Truthy(Field(rules, "failOnEmpty"));
    exists q :: Stuck(document, e, [], failOnEmpty, Actual(document, e), q)
  }

  ghost predicate Unusable(document: Document, rules: Value) {
    || !Has(rules, "pass") || NoOutcome(rules, "outcomeOnPass") || NoOutcome(rules, "outcomeOnFail")
    || Field(rules, "outcomeOnFail") == Str("CLEAR")
    || NoNumber(document, rules, "confidence") || NoNumber(document, rules, "threshold")
    || PassStuck(document, rules)
  }

  /** Every broken rule set holds the image, and says nothing else; only broken ones say they could not be
      evaluated. */
  lemma BrokenRulesHold(document: Document, rules: Value)
    ensures Unusable(document, rules) <==> Decide(document, rules).reason == NotEvaluable
    ensures Unusable(document, rules) ==> Decide(document, rules) == HELD
    ensures !Unusable(document, rules) ==>
      Decide(document, rules).passed == Truth(document, Field(rules, "pass"), [],
        Actual(document, Field(rules, "pass")))
  {
    hide Evaluate, Stuck, Actual, Truth, Agrees, KeyAt;
    var e, failOnEmpty := Field(rules, "pass"), Truthy(Field(rules, "failOnEmpty"));
    assert Navigate(e, []) == Some(e);
    HeldExactly(document, e, e, [], failOnEmpty);
    if Evaluate(document, e, [], failOnEmpty).Judged? {
      ActualAgrees(document, e, e, [], failOnEmpty);
      StoppingEarlyIsRight(document, e, [], failOnEmpty, Actual(document, e));
    }
  }

  /** The name an outcome is configured by. */
  function NameOf(outcome: Outcome): string {
    match outcome
    case Clear => "CLEAR"
    case Hold => "HOLD"
    case Fail => "FAIL"
  }

  predicate FindsFirst(document: Document, path: Value, v: Value) {
    path.Str? && document(path.text).Found? && document(path.text).values != [] && document(path.text).values[0] == v
  }

  /** A configured number: none when there is none, the one given, or the first its path finds. */
  predicate NumberIs(document: Document, rules: Value, key: string, reading: Option<real>) {
    var spec := Field(rules, key);
    if reading.None? then spec == Null
    else spec == Num(reading.value) || FindsFirst(document, spec, Num(reading.value))
  }

  /** A usable rule set is decided by what its pass rule actually is: the outcome is the one configured
      for that, or the usual one, and the two numbers are the configured ones. */
  lemma UsableRulesDecide(document: Document, rules: Value)
    requires !Unusable(document, rules)
    ensures var decision, so := Decide(document, rules), Truth(document, Field(rules, "pass"), [], Actual(document, Field(rules, "pass")));
      var key := if so then "outcomeOnPass" else "outcomeOnFail";
      && decision.passed == so
      && (Has(rules, key) ==> Field(rules, key) == Str(NameOf(decision.outcome)))
      && (!Has(rules, key) ==> decision.outcome == if so then Clear else Hold)
      && (so <==> decision.reason == Pass)
      && NumberIs(document, rules, "confidence", decision.confidence)
      && NumberIs(document, rules, "threshold", decision.threshold)
  {
    hide Evaluate, PassStuck, Actual, Truth, KeyAt;
    BrokenRulesHold(document, rules);
  }
}
