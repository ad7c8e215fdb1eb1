/** The text of the parent's idempotency keys and child workflow ids (workflows/parent.py). */
module JournalKeys {
  import opened Text
  import opened ParentMachine

  function Ending(failed: bool): string {
    if failed then "failed" else "completed"
  }

  /** The f-strings of lines 110, 172, 391, 425-496, 525, 565-586, 624-652 and 749-775. */
  ghost function Render(key: JournalKey): string {
    match key
    case WorkflowStarted => "workflow.started"
    case WorkflowCompleted => "workflow.completed"
    case CommandAccepted(id) => "command:" + id + ":" + "accepted"
    case CommandApplied(id) => "command:" + id + ":" + "applied"
    case MessageApplied(id) => "message:" + id + ":" + "applied"
    case Redirected(revision) => "redirect:" + IntText(revision)
    case RedirectedWork(revision, item) => "redirect:" + IntText(revision) + ":work:" + item
    case Recovery(attempts) => "recovery:" + Join(Sorted(set p | p in attempts :: p.0 + ":" + NatText(p.1)), "|")
    case WorkStarted(item, n) => "work:" + item + ":attempt:" + NatText(n) + ":" + "started"
    case WorkFinished(item, n, failed) => "work:" + item + ":attempt:" + NatText(n) + ":" + Ending(failed)
    case SubagentStarted(id, n) => "subagent:" + id + ":attempt:" + NatText(n) + ":" + "started"
    case SubagentFinished(id, n, failed) => "subagent:" + id + ":attempt:" + NatText(n) + ":" + Ending(failed)
    case AttemptStarted(n) => "attempt:" + NatText(n) + ":" + "started"
    case AttemptFinished(n, failed) => "attempt:" + NatText(n) + ":" + Ending(failed)
  }

  /** `prefix + id + ":attempt:" + n + ":" + ending` determines id, n and ending. */
  lemma AttemptTextInjective(prefix: string, id: string, n: nat, ending: string, id': string, n': nat, ending': string)
    requires prefix + id + ":attempt:" + NatText(n) + ":" + ending
          == prefix + id' + ":attempt:" + NatText(n') + ":" + ending'
    requires ':' !in ending && ':' !in ending'
    ensures id == id' && n == n' && ending == ending'
  {
    SplitAtLast(prefix + id + ":attempt:" + NatText(n), ending, prefix + id' + ":attempt:" + NatText(n'), ending', ':');
    assert prefix + id + ":attempt:" + NatText(n) == prefix + id + ":attempt" + [':'] + NatText(n);
    assert prefix + id' + ":attempt:" + NatText(n') == prefix + id' + ":attempt" + [':'] + NatText(n');
    SplitAtLast(prefix + id + ":attempt", NatText(n), prefix + id' + ":attempt", NatText(n'), ':');
    NatTextInjective(n, n');
    assert prefix + id + ":attempt" == prefix + id + [':'] + "attempt";
    assert prefix + id' + ":attempt" == prefix + id' + [':'] + "attempt";
    SplitAtLast(prefix + id, "attempt", prefix + id', "attempt", ':');
    CommonPrefix(prefix, id, id');
  }

  lemma BareAttemptInjective(n: nat, ending: string, n': nat, ending': string)
    requires "attempt:" + NatText(n) + ":" + ending == "attempt:" + NatText(n') + ":" + ending'
    requires ':' !in ending && ':' !in ending'
    ensures n == n' && ending == ending'
  {
    SplitAtLast("attempt:" + NatText(n), ending, "attempt:" + NatText(n'), ending', ':');
    CommonPrefix("attempt:", NatText(n), NatText(n'));
    NatTextInjective(n, n');
  }

  lemma SuffixedInjective(prefix: string, id: string, ending: string, id': string, ending': string)
    requires prefix + id + ":" + ending == prefix + id' + ":" + ending'
    requires ':' !in ending && ':' !in ending'
    ensures id == id' && ending == ending'
  {
    SplitAtLast(prefix + id, ending, prefix + id', ending', ':');
    CommonPrefix(prefix, id, id');
  }

  lemma RedirectInjective(revision: int, item: string, revision': int, item': string)
    requires "redirect:" + IntText(revision) + ":work:" + item == "redirect:" + IntText(revision') + ":work:" + item'
    ensures revision == revision' && item == item'
  {
    var a, b := IntText(revision), IntText(revision');
    assert "redirect:" + a + ":work:" + item == "redirect:" + (a + [':'] + ("work:" + item));
    assert "redirect:" + b + ":work:" + item' == "redirect:" + (b + [':'] + ("work:" + item'));
    CommonPrefix("redirect:", a + [':'] + ("work:" + item), b + [':'] + ("work:" + item'));
    IntTextNoColon(revision);
    IntTextNoColon(revision');
    SplitAtFirst(a, "work:" + item, b, "work:" + item', ':');
    IntTextInjective(revision, revision');
    CommonPrefix("work:", item, item');
  }

  lemma RedirectKindsDiffer(revision: int, revision': int, item': string)
    ensures "redirect:" + IntText(revision) != "redirect:" + IntText(revision') + ":work:" + item'
  {
    var rest := IntText(revision') + ":work:" + item';
    assert rest[|IntText(revision')|] == ':';
    assert ':' in rest;
    IntTextNoColon(revision);
    assert "redirect:" + IntText(revision') + ":work:" + item' == "redirect:" + rest;
    if "redirect:" + IntText(revision) == "redirect:" + rest {
      CommonPrefix("redirect:", IntText(revision), rest);
    }
  }

  /** The families of keys start differently. */
  function Family(key: JournalKey): string {
    match key
    case WorkflowStarted => "workf"
    case WorkflowCompleted => "workf"
    case CommandAccepted(_) => "comma"
    case CommandApplied(_) => "comma"
    case MessageApplied(_) => "messa"
    case Redirected(_) => "redir"
    case RedirectedWork(_, _) => "redir"
    case Recovery(_) => "recov"
    case WorkStarted(_, _) => "work:"
    case WorkFinished(_, _, _) => "work:"
    case SubagentStarted(_, _) => "subag"
    case SubagentFinished(_, _, _) => "subag"
    case AttemptStarted(_) => "attem"
    case AttemptFinished(_, _) => "attem"
  }

  lemma FamilyIsPrefix(key: JournalKey)
    ensures |Render(key)| >= 5 && Render(key)[..5] == Family(key)
  {
    match key
    case WorkflowStarted =>
    case WorkflowCompleted =>
    case CommandAccepted(id) =>
    case CommandApplied(id) =>
    case MessageApplied(id) =>
    case Redirected(revision) =>
    case RedirectedWork(revision, item) =>
    case Recovery(attempts) =>
    case WorkStarted(item, n) =>
    case WorkFinished(item, n, failed) =>
    case SubagentStarted(id, n) =>
    case SubagentFinished(id, n, failed) =>
    case AttemptStarted(n) =>
    case AttemptFinished(n, failed) =>
  }

  /** Two different keys never have the same text, whatever the ids contain; only recovery offers
      may repeat theirs. */
  lemma RenderInjective(a: JournalKey, b: JournalKey)
    requires Render(a) == Render(b)
    ensures a == b || (a.Recovery? && b.Recovery?)
  {
    FamilyIsPrefix(a);
    FamilyIsPrefix(b);
    match a
    case WorkflowStarted =>
    case WorkflowCompleted =>
    case Recovery(_) =>
    case CommandAccepted(id) =>
      SuffixedInjective("command:", id, "accepted", b.commandId, if b.CommandAccepted? then "accepted" else "applied");
    case CommandApplied(id) =>
      SuffixedInjective("command:", id, "applied", b.commandId, if b.CommandAccepted? then "accepted" else "applied");
    case MessageApplied(id) =>
      SuffixedInjective("message:", id, "applied", b.messageId, "applied");
    case Redirected(revision) =>
      if b.Redirected? {
        CommonPrefix("redirect:", IntText(revision), IntText(b.revision));
        IntTextInjective(revision, b.revision);
      } else {
        RedirectKindsDiffer(revision, b.revision, b.workItemId);
      }
    case RedirectedWork(revision, item) =>
      if b.Redirected? {
        RedirectKindsDiffer(b.revision, revision, item);
      } else {
        RedirectInjective(revision, item, b.revision, b.workItemId);
      }
    case WorkStarted(item, n) =>
      AttemptTextInjective("work:", item, n, "started", b.workItemId, b.attempt,
                           if b.WorkStarted? then "started" else Ending(b.failed));
    case WorkFinished(item, n, failed) =>
      AttemptTextInjective("work:", item, n, Ending(failed), b.workItemId, b.attempt,
                           if b.WorkStarted? then "started" else Ending(b.failed));
    case SubagentStarted(id, n) =>
      AttemptTextInjective("subagent:", id, n, "started", b.subagentId, b.attempt,
                           if b.SubagentStarted? then "started" else Ending(b.failed));
    case SubagentFinished(id, n, failed) =>
      AttemptTextInjective("subagent:", id, n, Ending(failed), b.subagentId, b.attempt,
                           if b.SubagentStarted? then "started" else Ending(b.failed));
    case AttemptStarted(n) =>
      BareAttemptInjective(n, "started", b.attempt, if b.AttemptStarted? then "started" else Ending(b.failed));
    case AttemptFinished(n, failed) =>
      BareAttemptInjective(n, Ending(failed), b.attempt, if b.AttemptStarted? then "started" else Ending(b.failed));
  }

  /** Line 675: the id of a child workflow. */
  function ChildWorkflowId(workflowId: string, item: string, attempt: nat): string {
    workflowId + ":child:" + item + ":attempt:" + NatText(attempt)
  }

  lemma ChildWorkflowIdInjective(workflowId: string, item: string, n: nat, item': string, n': nat)
    requires ChildWorkflowId(workflowId, item, n) == ChildWorkflowId(workflowId, item', n')
    ensures item == item' && n == n'
  {
    var prefix := workflowId + ":child:";
    assert prefix + item + ":attempt:" + NatText(n) + ":" + "" == ChildWorkflowId(workflowId, item, n) + ":";
    assert prefix + item' + ":attempt:" + NatText(n') + ":" + "" == ChildWorkflowId(workflowId, item', n') + ":";
    AttemptTextInjective(prefix, item, n, "", item', n', "");
  }
}
