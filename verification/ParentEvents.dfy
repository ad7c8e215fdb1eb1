/** The journal calls of the parent workflow, as activities that may run any number of times. */
module ParentEvents {
  import opened Wrappers
  import opened Text
  import opened EventJournal
  import opened JournalKeys
  import opened MemoryStore
  import Machine = ParentMachine
  import Runs = ParentRuns
  import Journal = ParentJournal

  /** Each execution carries the content of one of the parent's calls, under an event id of its own. */
  ghost predicate ExecutesCalls(journal: seq<Machine.JournalCall>, content: Machine.JournalCall -> Draft,
                                executions: seq<Execution>) {
    forall m :: 0 <= m < |executions| ==>
      exists i ::
            0 <= i < |journal| && executions[m].runId == journal[i].runId
            && ContentOf(executions[m].draft) == ContentOf(content(journal[i]))
  }

  ghost predicate KeyedContent(journal: seq<Machine.JournalCall>, content: Machine.JournalCall -> Draft) {
    forall i :: 0 <= i < |journal| ==> content(journal[i]).idempotencyKey == Some(Render(journal[i].key))
  }

  /** Calls with the same key on the same run are recoveries. */
  ghost predicate FreshCalls(journal: seq<Machine.JournalCall>) {
    forall i, j :: 0 <= i < j < |journal| && journal[i].runId == journal[j].runId ==>
      Render(journal[i].key) == Render(journal[j].key) ==>
      journal[i].key.Recovery? && journal[j].key.Recovery?
  }

  /** With fresh calls, all executions under the key of a call that is not a recovery carry that
      call's content. */
  lemma {:induction false} SameKeySameDraft(journal: seq<Machine.JournalCall>, i: nat,
                                            content: Machine.JournalCall -> Draft, executions: seq<Execution>, x: nat)
    requires FreshCalls(journal) && i < |journal| && !journal[i].key.Recovery?
    requires KeyedContent(journal, content) && ExecutesCalls(journal, content, executions)
    requires x < |executions| && executions[x].runId == journal[i].runId
    requires executions[x].draft.idempotencyKey == content(journal[i]).idempotencyKey
    ensures ContentOf(executions[x].draft) == ContentOf(content(journal[i]))
  {
    hide Render;
    var j :| 0 <= j < |journal| && executions[x].runId == journal[j].runId
             && ContentOf(executions[x].draft) == ContentOf(content(journal[j]));
    assert Render(journal[j].key) == Render(journal[i].key);
    assert j == i;
  }

  /** So such a call, executed at least once, yields exactly one event, with its own content, however
      often and in whatever order the append activities run. */
  lemma {:induction false} CallHasOneEvent(journal: seq<Machine.JournalCall>, i: nat,
                                           content: Machine.JournalCall -> Draft,
                                           env: Env, s: State, executions: seq<Execution>, m: nat)
    requires FreshCalls(journal) && i < |journal| && !journal[i].key.Recovery?
    requires KeyedContent(journal, content) && ExecutesCalls(journal, content, executions)
    requires m < |executions| && executions[m].runId == journal[i].runId
    requires ContentOf(executions[m].draft) == ContentOf(content(journal[i]))
    requires journal[i].runId in s.runs && journal[i].runId in s.events
    requires FindKey(s.events[journal[i].runId], Render(journal[i].key)).None?
    requires StoreInv(env, s)
    ensures journal[i].runId in Execute(env, s, executions).events
    ensures HasOne(Execute(env, s, executions).events[journal[i].runId], content(journal[i]))
  {
    hide StoreInv, Execute, Render, FreshCalls, ExecutesCalls, FindKey;
    forall x | 0 <= x < |executions| && SameKey(executions[x], executions[m])
      ensures ContentOf(executions[x].draft) == ContentOf(executions[m].draft)
    {
      SameKeySameDraft(journal, i, content, executions, x);
    }
    OneEventWithDraft(env, s, executions, m);
  }

  /** The parent's calls are fresh, so apart from recoveries every journal call it makes yields exactly
      one event. */
  lemma {:induction false} ParentCallsFresh(c: Machine.Request, r: Runs.Run, k: nat)
    requires Runs.IsRun(c, r) && Journal.DistinctChildren(c) && k < |r.states|
    ensures FreshCalls(r.states[k].journal)
  {
    hide Runs.IsRun, Render;
    var journal := r.states[k].journal;
    forall i, j | 0 <= i < j < |journal| && journal[i].runId == journal[j].runId
    && Render(journal[i].key) == Render(journal[j].key)
      ensures journal[i].key.Recovery? && journal[j].key.Recovery?
    {
      Runs.JournalKeysFresh(c, r, k, i, j);
    }
  }

  /** Together: in every reachable state of the parent, every journal call that is not a recovery, once
      executed, has yielded exactly one event with its own content. */
  lemma {:induction false} ParentCallHasOneEvent(c: Machine.Request, r: Runs.Run, k: nat, i: nat,
                                                 content: Machine.JournalCall -> Draft,
                                                 env: Env, s: State, executions: seq<Execution>, m: nat)
    requires Runs.IsRun(c, r) && Journal.DistinctChildren(c) && k < |r.states|
    requires i < |r.states[k].journal| && !r.states[k].journal[i].key.Recovery?
    requires KeyedContent(r.states[k].journal, content) && ExecutesCalls(r.states[k].journal, content, executions)
    requires var call := r.states[k].journal[i];
             && m < |executions| && executions[m].runId == call.runId
             && ContentOf(executions[m].draft) == ContentOf(content(call))
             && call.runId in s.runs && call.runId in s.events
             && FindKey(s.events[call.runId], Render(call.key)).None?
    requires StoreInv(env, s)
    ensures var call := r.states[k].journal[i];
            && call.runId in Execute(env, s, executions).events
            && HasOne(Execute(env, s, executions).events[call.runId], content(call))
  {
    hide Runs.IsRun, StoreInv, Execute, Render, FreshCalls, ExecutesCalls, FindKey, HasOne;
    ParentCallsFresh(c, r, k);
    CallHasOneEvent(r.states[k].journal, i, content, env, s, executions, m);
  }
}
