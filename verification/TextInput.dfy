/** What a dependency named "text" does to a tool's inputs (runtime/core.py:582-584). */
module TextInput {
  import opened Wrappers
  import opened Json
  import opened Approval
  import opened Plans
  import opened PlanOrder
  import opened Memory
  import opened Agent
  import opened Observe

  /** A call is handed the message text under "text" exactly when no dependency is named so, or that dependency's
      output happens to be the text. */
  lemma {:induction false} TextKeptExactly(text: Value, deps: seq<string>, outputs: Dict)
    ensures "text" in InputsOf(text, deps, outputs)
    ensures InputsOf(text, deps, outputs)["text"] == text
       <==> ("text" in deps ==> Lookup(outputs, "text").GetOr(Null) == text)
  {
    if deps == [] {
    } else {
      var n := |deps| - 1;
      TextKeptExactly(text, deps[..n], outputs);
      assert deps == deps[..n] + [deps[n]];
    }
  }

  // ---- a run that loses the message text ------------------------------------------------------

  const FIRST := Task("text", [], Some("echo_tool"), None, None)
  const SECOND := Task("reply", ["text"], Some("echo_tool"), None, None)

  /** A planner whose first task is named "text", and whose second depends on it. */
  function Summarizer(): Neop {
    Neop("summarizer", true, false, 0, ["echo_tool"], {"echo_tool"}, false, false, false, false, false,
         (k, t, m) => Returns(Plan(Some("p"), [FIRST, SECOND])),
         (k, t, m, task, o) => Returns(true), (k, tool, i) => Returns(Str("summary")))
  }

  predicate SecondCall(e: Entry) {
    e.Invoked? && e.task == SECOND && "text" in e.inputs && e.inputs["text"] == Str("summary")
  }

  lemma PlanOrdered()
    ensures TopoOrder([FIRST, SECOND]) == Success([FIRST, SECOND])
  {
    var tasks := [FIRST, SECOND];
    assert Earlier(tasks, 1, "text") by { assert tasks[0].id == "text"; }
    assert Distinct(tasks) && Respects(ById(tasks), tasks);
    SortedUnchanged(tasks);
  }

  lemma FirstTask(r: Run)
    ensures var (ok, r1) := ExecTask(Summarizer(), Off, r, FIRST, false);
            ok && r1.err == r.err && Lookup(r1.core.outputs, "text") == Some(Str("summary"))
  {
    LookupPut(r.core.outputs, "text", Str("summary"), "text");
  }

  lemma SecondTask(r: Run)
    requires Lookup(r.core.outputs, "text") == Some(Str("summary"))
    ensures var (ok, r1) := ExecTask(Summarizer(), Off, r, SECOND, false);
            ok && r1.err == r.err && exists i :: 0 <= i < |r1.log| && SecondCall(r1.log[i])
  {
    var r1 := ExecTask(Summarizer(), Off, r, SECOND, false).1;
    var inputs := InputsOf(r.core.who.msg.text, ["text"], r.core.outputs);
    assert inputs["text"] == Str("summary");
    assert SecondCall(r1.log[|r.log| + 1]);
  }

  lemma BothTasks(s: Run)
    requires s.core.plan.tasks == [FIRST, SECOND] && s.err.None?
    ensures var r := Drive(Summarizer(), Off, s, None);
            r.err.None? && r.state == Done && exists i :: 0 <= i < |r.log| && SecondCall(r.log[i])
  {
    hide ExecTask;
    var n := Summarizer();
    PlanOrdered();
    var r0 := s.(core := s.core.(outputs := []));
    FirstTask(r0);
    var r1 := ExecTask(n, Off, r0, FIRST, false).1;
    SecondTask(r1);
    var out := ExecTask(n, Off, r1, SECOND, false);
    var order := [FIRST, SECOND];
    assert order[1..] == [SECOND] && [SECOND][1..] == [];
    assert ExecFrom(n, Off, r1, [SECOND], false) == out;
    assert ExecFrom(n, Off, r0, order, false) == out;
  }

  /** Whatever the message says, this run's second tool call is handed the first one's output as its text. */
  lemma TextLost(mem: Mem, msg: Msg)
    ensures var r := Dispatch(Summarizer(), Off, mem, msg).run;
            r.state == Done && exists i :: 0 <= i < |r.log| && SecondCall(r.log[i])
  {
    hide Drive, TopoOrder;
    var n := Summarizer();
    var s := Start(n, mem, msg);
    BothTasks(s);
    var r := Drive(n, Off, s, None);
    GrowsConclude(n, mem, r);
    var i :| 0 <= i < |r.log| && SecondCall(r.log[i]);
    assert SecondCall(Dispatch(n, Off, mem, msg).run.log[i]);
  }
}
