/**
 * The conversation state machine of the Text2SQL graph: the state record,
 * its initialisation and updates, the feedback router, the wait nodes, the
 * routing of both graphs and the message describing a query result.
 *
 * The nodes that call the language model (`explain_query`, `generate_sql`,
 * `detect_intent`) are not modelled; along the graph they leave the
 * recursion count and the feedback as they are, which is all the routing
 * reads. Fields holding arbitrary values (`query_explanation`,
 * `generated_sql`, `query_result`) are modelled as optional strings.
 */
module ConversationGraph {
  import opened Wrappers
  import opened Text
  import opened QueryModels

  datatype Role = User | Assistant

  /** A history entry `{"role": ..., "content": ...}`. */
  datatype Message = Message(role: Role, content: string)

  /**
   * The list `conversation_history`. The state dictionaries built with
   * `{**state, ...}` share it, so an `append` on it is seen through every
   * state that refers to it.
   */
  class History {
    var messages: seq<Message>

    constructor (messages: seq<Message>)
      ensures this.messages == messages
    {
      this.messages := messages;
    }

    method Append(m: Message)
      modifies this
      ensures messages == old(messages) + [m]
    {
      messages := messages + [m];
    }
  }

  /** `GraphState`, with the optional `_force_end` entry the wait node adds. */
  datatype GraphState = GraphState(
    originalQuery: string,
    currentQuery: string,
    sqlIntent: Option<bool>,
    intentExplanation: Option<string>,
    queryExplanation: Option<string>,
    userFeedback: Option<string>,
    generatedSql: Option<string>,
    queryResult: Option<string>,
    errorMessage: Option<string>,
    recursionCount: int,
    forceEnd: Option<bool>,
    history: History)

  const Good: string := "good"
  const NotGood: string := "not_good"
  const ProceedingMessage: string := "I haven't received feedback, but I'll proceed with generating SQL based on my understanding."

  /** The nodes of both graphs, and `END`. */
  datatype Node = ExplainQuery | GenerateSql | WaitForFeedback | WaitForClarification | DetectIntent | End

  /** `initialize_state`: both queries set, every optional field `None`, the count 0, one user message. */
  method InitializeState(query: string) returns (s: GraphState)
    ensures fresh(s.history)
    ensures s.history.messages == [Message(User, query)]
    ensures s.originalQuery == query && s.currentQuery == query
    ensures s.recursionCount == 0
    ensures s.sqlIntent.None? && s.intentExplanation.None? && s.queryExplanation.None? && s.userFeedback.None?
    ensures s.generatedSql.None? && s.queryResult.None? && s.errorMessage.None? && s.forceEnd.None?
  {
    var history := new History([Message(User, query)]);
    s := GraphState(query, query, None, None, None, None, None, None, None, 0, None, history);
  }

  /**
   * `update_state_with_feedback`: the feedback set, the count kept, and a new
   * history list: the old one plus one `Feedback: ...` user message. The input
   * state's list is left alone.
   */
  method UpdateStateWithFeedback(s: GraphState, feedback: string) returns (t: GraphState)
    ensures fresh(t.history)
    ensures t.history.messages == s.history.messages + [Message(User, "Feedback: " + feedback)]
    ensures t == s.(userFeedback := Some(feedback), history := t.history)
  {
    var history := new History(s.history.messages + [Message(User, "Feedback: " + feedback)]);
    t := s.(userFeedback := Some(feedback), history := history);
  }

  /**
   * `update_state_with_clarification`: the clarification becomes the current
   * query, the feedback is reset, the original query and the count are kept,
   * and a new history list gains one `Clarification: ...` user message.
   */
  method UpdateStateWithClarification(s: GraphState, clarification: string) returns (t: GraphState)
    ensures fresh(t.history)
    ensures t.history.messages == s.history.messages + [Message(User, "Clarification: " + clarification)]
    ensures t == s.(currentQuery := clarification, userFeedback := None, history := t.history)
  {
    var history := new History(s.history.messages + [Message(User, "Clarification: " + clarification)]);
    t := s.(currentQuery := clarification, userFeedback := None, history := history);
  }

  // ----- Routing -----

  /** `should_continue_to_sql`: where the graph goes after `explain_query` and `wait_for_feedback`. */
  function ShouldContinueToSql(s: GraphState): (next: Node)
    ensures next == GenerateSql || next == WaitForFeedback || next == WaitForClarification
    ensures s.recursionCount + 1 > 5 ==> next == GenerateSql
    ensures next == WaitForFeedback <==>
      s.recursionCount + 1 <= 3 && s.userFeedback != Some(Good) && s.userFeedback != Some(NotGood)
    ensures next == WaitForClarification <==> s.recursionCount + 1 <= 5 && s.userFeedback == Some(NotGood)
  {
    var count := s.recursionCount + 1;
    if count > 5 then GenerateSql
    else if s.userFeedback == Some(Good) then GenerateSql
    else if s.userFeedback == Some(NotGood) then WaitForClarification
    else if count <= 3 then WaitForFeedback
    else GenerateSql
  }

  /** The state `wait_for_feedback_node` returns, apart from the history it appends to. */
  function AfterWaitForFeedback(s: GraphState): (t: GraphState)
    ensures t.recursionCount == s.recursionCount + 1
    ensures t.history == s.history
  {
    var count := s.recursionCount + 1;
    if count > 3 then s.(recursionCount := count, forceEnd := Some(true), userFeedback := Some(Good))
    else s.(recursionCount := count)
  }

  /**
   * `wait_for_feedback_node` (both copies): one more on the count; once the
   * count passes 3 it also appends one assistant message to the shared
   * history and forces the feedback to `good`. No other field changes.
   */
  method WaitForFeedbackNode(s: GraphState) returns (t: GraphState)
    modifies s.history
    ensures t.recursionCount == s.recursionCount + 1
    ensures t.history == s.history
    ensures s.recursionCount + 1 > 3 ==>
      && s.history.messages == old(s.history.messages) + [Message(Assistant, ProceedingMessage)]
      && t == s.(recursionCount := t.recursionCount, forceEnd := Some(true), userFeedback := Some(Good))
    ensures s.recursionCount + 1 <= 3 ==>
      && s.history.messages == old(s.history.messages)
      && t == s.(recursionCount := t.recursionCount)
    ensures t == AfterWaitForFeedback(s)
  {
    var count := s.recursionCount + 1;
    if count > 3 {
      s.history.Append(Message(Assistant, ProceedingMessage));
      return s.(recursionCount := count, forceEnd := Some(true), userFeedback := Some(Good));
    }
    return s.(recursionCount := count);
  }

  /** `wait_for_clarification_node`: one more on the count and nothing else. */
  function WaitForClarificationNode(s: GraphState): (t: GraphState)
    ensures t == s.(recursionCount := s.recursionCount + 1)
    ensures t.recursionCount > s.recursionCount
  {
    s.(recursionCount := s.recursionCount + 1)
  }

  /**
   * One step along the edges of `build_graph`, from a node to the next node
   * and the state it receives. `explain_query` keeps the count and the
   * feedback; `generate_sql` leads to the end.
   */
  function Step(n: Node, s: GraphState): (Node, GraphState)
  {
    match n
    case ExplainQuery => (ShouldContinueToSql(s), s)
    case WaitForFeedback =>
      var t := AfterWaitForFeedback(s);
      (ShouldContinueToSql(t), t)
    case WaitForClarification => (ExplainQuery, WaitForClarificationNode(s))
    case GenerateSql => (End, s)
    case DetectIntent => (End, s)
    case End => (End, s)
  }

  /** How many more passes through a wait node the router allows. */
  function Remaining(count: int): nat
  {
    if count >= 5 then 0 else 5 - count
  }

  /** Orders the nodes at equal `Remaining`: a router decision comes after `explain_query`. */
  function Rank(n: Node, count: int): nat
  {
    match n
    case GenerateSql => 0
    case ExplainQuery => if Remaining(count) == 0 then 1 else 2
    case WaitForClarification => if Remaining(count) == 0 then 2 else 1
    case _ => 1
  }

  predicate InBuildGraph(n: Node)
  {
    n == ExplainQuery || n == GenerateSql || n == WaitForFeedback || n == WaitForClarification
  }

  /**
   * The number of steps from `n` to `generate_sql` along `build_graph`. That
   * this function is total — each wait node raises the count and the router
   * forces `generate_sql` once the count is high — is the termination proof.
   */
  function StepsToSql(n: Node, s: GraphState): nat
    requires InBuildGraph(n)
    decreases Remaining(s.recursionCount), Rank(n, s.recursionCount)
  {
    if n == GenerateSql then 0
    else
      var next := Step(n, s);
      1 + StepsToSql(next.0, next.1)
  }

  /** `Step` applied `k` times, stopping at `generate_sql`. */
  function Run(n: Node, s: GraphState, k: nat): (Node, GraphState)
    requires InBuildGraph(n)
    decreases k
  {
    if k == 0 || n == GenerateSql then (n, s)
    else
      var next := Step(n, s);
      assert InBuildGraph(next.0);
      Run(next.0, next.1, k - 1)
  }

  /** Running the graph for `StepsToSql` steps arrives at `generate_sql`. */
  lemma {:induction false} RunReachesSql(n: Node, s: GraphState)
    requires InBuildGraph(n)
    ensures Run(n, s, StepsToSql(n, s)).0 == GenerateSql
    decreases Remaining(s.recursionCount), Rank(n, s.recursionCount)
  {
    if n != GenerateSql {
      var next := Step(n, s);
      RunReachesSql(next.0, next.1);
    }
  }

  /** The bound on the remaining steps for each node. */
  function StepBound(n: Node, count: int): nat
  {
    var r := Remaining(count);
    match n
    case GenerateSql => 0
    case ExplainQuery => if r == 0 then 1 else 2 * r + 2
    case WaitForClarification => if r == 0 then 2 else 2 * r + 1
    case _ => 2 * r + 1
  }

  /** From any node and count, `generate_sql` is at most `2 * Remaining + 2` steps away. */
  lemma {:induction false} StepsBounded(n: Node, s: GraphState)
    requires InBuildGraph(n)
    ensures StepsToSql(n, s) <= StepBound(n, s.recursionCount) <= 2 * Remaining(s.recursionCount) + 2
    decreases Remaining(s.recursionCount), Rank(n, s.recursionCount)
  {
    if n != GenerateSql {
      var next := Step(n, s);
      StepsBounded(next.0, next.1);
    }
  }

  /** A conversation started by `initialize_state` reaches `generate_sql` within 12 steps. */
  lemma FreshConversationBounded(s: GraphState)
    requires s.recursionCount == 0
    ensures StepsToSql(ExplainQuery, s) <= 12
  {
    StepsBounded(ExplainQuery, s);
  }

  /** The router after `detect_intent` in `build_simple_graph`. */
  function AfterDetectIntent(s: GraphState): (next: Node)
    ensures next == ExplainQuery <==> s.sqlIntent == Some(true)
    ensures next == ExplainQuery || next == End
  {
    if s.sqlIntent.GetOr(false) then ExplainQuery else End
  }

  /** The router after `wait_for_feedback` in `build_simple_graph`. */
  function AfterFeedbackSimple(s: GraphState): (next: Node)
    ensures next == GenerateSql <==> s.userFeedback == Some(Good) || s.forceEnd == Some(true)
    ensures next == GenerateSql || next == End
  {
    if s.userFeedback == Some(Good) || s.forceEnd.GetOr(false) then GenerateSql else End
  }

  /**
   * In the simple graph a wait that pushes the count past 3 always goes on to
   * `generate_sql`; below that only feedback already `good` does.
   */
  lemma SimpleGraphWaitRouting(s: GraphState)
    ensures s.recursionCount + 1 > 3 ==> AfterFeedbackSimple(AfterWaitForFeedback(s)) == GenerateSql
    ensures s.recursionCount + 1 <= 3 ==>
      (AfterFeedbackSimple(AfterWaitForFeedback(s)) == GenerateSql <==>
       s.userFeedback == Some(Good) || s.forceEnd == Some(true))
  {
  }

  // ----- Result message -----

  const NoResultsMessage: string := "The query executed successfully but returned no results."
  const OneRowMessage: string := "The query returned 1 row."

  /** `str(x)` of an optional string. */
  function Str(x: Option<string>): string
  {
    x.GetOr("None")
  }

  /** Reading an attribute `QueryResult` does not have. */
  datatype AttributeError = AttributeError(name: string)

  /** `format_query_result_message` as written: a failed result's message reads `query_result.error`. */
  function FormatQueryResultMessageAsWritten(r: QueryResult): Result<string, AttributeError>
  {
    if !r.success then Err(AttributeError("error"))
    else Ok(FormatQueryResultMessage(r))
  }

  /** As written, every failed result raises instead of describing its failure. */
  lemma FailureMessageRaises(r: QueryResult)
    requires !r.success
    ensures FormatQueryResultMessageAsWritten(r) == Err(AttributeError("error"))
    ensures FormatQueryResultMessage(r) == "Query execution failed: " + Str(r.errorMessage)
  {
  }

  /** `format_query_result_message` reading `error_message`, the field `QueryResult` has. */
  function FormatQueryResultMessage(r: QueryResult): (m: string)
    ensures !r.success ==> StartsWith(m, "Query execution failed: ")
    ensures r.success && (r.data.None? || r.data.value == []) ==> m == NoResultsMessage
    ensures r.success && r.data.Some? && |r.data.value| == 1 ==> m == OneRowMessage
  {
    if !r.success then
      StartsWithConcat("Query execution failed: ", Str(r.errorMessage));
      "Query execution failed: " + Str(r.errorMessage)
    else if r.data.None? || r.data.value == [] then NoResultsMessage
    else if |r.data.value| == 1 then OneRowMessage
    else "The query returned " + NatToString(|r.data.value|) + " rows."
  }

  /**
   * The row count can be read back from the message: for two rows or more
   * the message is `The query returned <n> rows.` and its digits parse to `n`.
   */
  lemma RowCountReadBack(r: QueryResult)
    requires r.success && r.data.Some? && |r.data.value| >= 2
    ensures var m := FormatQueryResultMessage(r);
      var digits := m[|"The query returned "|..|m| - |" rows."|];
      && StartsWith(m, "The query returned ")
      && EndsWith(m, " rows.")
      && (forall i :: 0 <= i < |digits| ==> IsDigit(digits[i]))
      && ParseNat(digits) == |r.data.value|
  {
    var n := |r.data.value|;
    var m := FormatQueryResultMessage(r);
    var head, tail := "The query returned ", " rows.";
    assert m == head + NatToString(n) + tail;
    assert m[..|head|] == head;
    assert m[|m| - |tail|..] == tail;
    assert m[|head|..|m| - |tail|] == NatToString(n);
    ParseNatToString(n);
  }
}
