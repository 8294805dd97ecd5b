/** Workflow documents: nodes in topological order, and the conditions that guard them.
    A node's identity is its position in that order, so dependencies come first. */
module Workflow {
  datatype Option<+T> = None | Some(value: T)

  type NodeId = nat
  type Field = string
  type Value = string

  /** A node's result: the fields a condition can read, and whether it asks questions. */
  datatype Output = Output(fields: map<Field, Value>, questions: bool)

  datatype Kind = Agent | Approval

  datatype Condition =
    | Compare(node: NodeId, field: Field, equals: Value)
    | All(children: seq<Condition>)
    | Any(children: seq<Condition>)
    | Not(child: Condition)

  datatype Definition = Definition(kind: Kind, dependsOn: seq<NodeId>, guard: Option<Condition>)

  datatype Document = Document(nodes: seq<Definition>, maxConcurrency: int)

  ghost predicate Ordered(doc: Document)
  {
    forall i, d :: 0 <= i < |doc.nodes| && d in doc.nodes[i].dependsOn ==> d < i
  }

  /** A condition matches, differs, or refers to something that is not there. */
  datatype Evaluation = Matches | Differs | Broken

  function Evaluate(c: Condition, results: map<NodeId, Output>): Evaluation
    decreases c
  {
    match c
    case Compare(node, field, equals) =>
      if node !in results || field !in results[node].fields then Broken
      else if results[node].fields[field] == equals then Matches else Differs
    case All(children) => EvaluateAll(children, results)
    case Any(children) => EvaluateAny(children, results)
    case Not(child) =>
      match Evaluate(child, results) {
        case Matches => Differs
        case Differs => Matches
        case Broken => Broken
      }
  }

  /** Stops at the first child that does not match. */
  function EvaluateAll(cs: seq<Condition>, results: map<NodeId, Output>): Evaluation
    decreases cs
  {
    if cs == [] then Matches
    else if Evaluate(cs[0], results) != Matches then Evaluate(cs[0], results)
    else EvaluateAll(cs[1..], results)
  }

  /** Stops at the first child that does not differ. */
  function EvaluateAny(cs: seq<Condition>, results: map<NodeId, Output>): Evaluation
    decreases cs
  {
    if cs == [] then Differs
    else if Evaluate(cs[0], results) != Differs then Evaluate(cs[0], results)
    else EvaluateAny(cs[1..], results)
  }

  predicate ResultMissing(c: Condition, results: map<NodeId, Output>)
    decreases c
  {
    match c
    case Compare(node, _, _) => node !in results
    case All(children) => AnyResultMissing(children, results)
    case Any(children) => AnyResultMissing(children, results)
    case Not(child) => ResultMissing(child, results)
  }

  predicate AnyResultMissing(cs: seq<Condition>, results: map<NodeId, Output>)
    decreases cs
  {
    cs != [] && (ResultMissing(cs[0], results) || AnyResultMissing(cs[1..], results))
  }

  /** Every field that c reads is present wherever its node has a result. */
  predicate FieldsPresent(c: Condition, results: map<NodeId, Output>)
    decreases c
  {
    match c
    case Compare(node, field, _) => node in results ==> field in results[node].fields
    case All(children) => AllFieldsPresent(children, results)
    case Any(children) => AllFieldsPresent(children, results)
    case Not(child) => FieldsPresent(child, results)
  }

  predicate AllFieldsPresent(cs: seq<Condition>, results: map<NodeId, Output>)
    decreases cs
  {
    cs == [] || (FieldsPresent(cs[0], results) && AllFieldsPresent(cs[1..], results))
  }

  /** Short-circuiting never invents an error: a condition over present fields breaks only
      because a result is missing, and once every result is there it always has a value. */
  lemma {:induction false} BrokenNeedsMissingResult(c: Condition, results: map<NodeId, Output>)
    requires FieldsPresent(c, results)
    ensures Evaluate(c, results) == Broken ==> ResultMissing(c, results)
    decreases c
  {
    match c
    case Compare(_, _, _) =>
    case All(children) => BrokenGroup(children, results);
    case Any(children) => BrokenGroup(children, results);
    case Not(child) => BrokenNeedsMissingResult(child, results);
  }

  lemma {:induction false} BrokenGroup(cs: seq<Condition>, results: map<NodeId, Output>)
    requires AllFieldsPresent(cs, results)
    ensures EvaluateAll(cs, results) == Broken ==> AnyResultMissing(cs, results)
    ensures EvaluateAny(cs, results) == Broken ==> AnyResultMissing(cs, results)
    decreases cs
  {
    if cs != [] {
      BrokenNeedsMissingResult(cs[0], results);
      BrokenGroup(cs[1..], results);
    }
  }
}
