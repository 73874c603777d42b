/** The collaborative planning page: shared tasks that can be ticked off
    and decisions whose options are drafted in a form and one of which is
    eventually chosen. */
module Collaborative {
  import opened Lists

  datatype Task = Task(id: string, description: string, assignedTo: string, completed: bool)

  datatype Decision = Decision(id: string, topic: string, options: seq<string>, selectedOption: Option<string>)

  /** The task form. */
  datatype TaskDraft = TaskDraft(description: string, assignedTo: string)

  const EmptyTaskDraft := TaskDraft("", "")

  /** The decision form: a topic and the options typed so far. */
  datatype DecisionDraft = DecisionDraft(topic: string, options: seq<string>)

  /** The decision form's initial and reset value: no topic, two empty options. */
  const EmptyDecisionDraft := DecisionDraft("", ["", ""])

  function TaskHasId(id: string): Task -> bool {
    (t: Task) => t.id == id
  }

  function Flip(t: Task): Task {
    t.(completed := !t.completed)
  }

  /** `toggleTask`: the tasks with the id have their `completed` flag
      flipped; every other task, the length and the order stay. */
  function Toggled(ts: seq<Task>, id: string): (r: seq<Task>)
    ensures |r| == |ts|
    ensures forall i :: 0 <= i < |ts| ==>
              r[i] == if ts[i].id == id then ts[i].(completed := !ts[i].completed) else ts[i]
  {
    MapWhere(ts, TaskHasId(id), Flip)
  }

  /** Toggling the same task twice restores the list. */
  lemma ToggleTwice(ts: seq<Task>, id: string)
    ensures Toggled(Toggled(ts, id), id) == ts
  {
    var once := Toggled(ts, id);
    var twice := Toggled(once, id);
    forall i | 0 <= i < |ts| ensures twice[i] == ts[i] {
      assert once[i].id == ts[i].id;
    }
  }

  function DecisionHasId(id: string): Decision -> bool {
    (d: Decision) => d.id == id
  }

  function Choose(option: string): Decision -> Decision {
    (d: Decision) => d.(selectedOption := Some(option))
  }

  /** `makeDecision`: the decisions with the id get the option as their
      choice, whether or not it is one of their options; every other
      decision stays. */
  function Decided(ds: seq<Decision>, id: string, option: string): (r: seq<Decision>)
    ensures |r| == |ds|
    ensures forall i :: 0 <= i < |ds| ==>
              r[i] == if ds[i].id == id then ds[i].(selectedOption := Some(option)) else ds[i]
  {
    MapWhere(ds, DecisionHasId(id), Choose(option))
  }

  /** Making the same decision twice is making it once. */
  lemma DecideIdempotent(ds: seq<Decision>, id: string, option: string)
    ensures Decided(Decided(ds, id, option), id, option) == Decided(ds, id, option)
  {
    var once := Decided(ds, id, option);
    var twice := Decided(once, id, option);
    forall i | 0 <= i < |ds| ensures twice[i] == once[i] {
      assert once[i].id == ds[i].id;
    }
  }

  /** A later choice overrides an earlier one. */
  lemma LaterChoiceWins(ds: seq<Decision>, id: string, first: string, second: string)
    ensures Decided(Decided(ds, id, first), id, second) == Decided(ds, id, second)
  {
    var once := Decided(ds, id, first);
    var twice := Decided(once, id, second);
    forall i | 0 <= i < |ds| ensures twice[i] == Decided(ds, id, second)[i] {
      assert once[i].id == ds[i].id;
    }
  }

  /** The chosen option is not checked against the decision's options. */
  lemma ChoiceIsNotChecked()
    ensures Decided([Decision("1", "מקום", ["גן", "אולם"], None)], "1", "ים")
            == [Decision("1", "מקום", ["גן", "אולם"], Some("ים"))]
  {
    var r := Decided([Decision("1", "מקום", ["גן", "אולם"], None)], "1", "ים");
    assert r[0] == Decision("1", "מקום", ["גן", "אולם"], Some("ים"));
  }

  /** The collaborative page's state. */
  class CollaborativePlanning {
    var tasks: seq<Task>
    var newTask: TaskDraft
    var decisions: seq<Decision>
    var newDecision: DecisionDraft

    constructor ()
      ensures tasks == [] && newTask == EmptyTaskDraft
      ensures decisions == [] && newDecision == EmptyDecisionDraft
    {
      tasks := [];
      newTask := EmptyTaskDraft;
      decisions := [];
      newDecision := EmptyDecisionDraft;
    }

    /** `addTask`: one open task is appended from the form, which is reset. */
    method AddTask(id: string)
      modifies this`tasks, this`newTask
      ensures tasks == old(tasks) + [Task(id, old(newTask).description, old(newTask).assignedTo, false)]
      ensures newTask == EmptyTaskDraft
    {
      tasks := tasks + [Task(id, newTask.description, newTask.assignedTo, false)];
      newTask := EmptyTaskDraft;
    }

    /** `toggleTask`. */
    method ToggleTask(id: string)
      modifies this`tasks
      ensures tasks == Toggled(old(tasks), id)
    {
      tasks := Toggled(tasks, id);
    }

    /** `addDecision`: one undecided decision is appended from the form,
        which is reset to an empty topic with two empty options. */
    method AddDecision(id: string)
      modifies this`decisions, this`newDecision
      ensures decisions == old(decisions) + [Decision(id, old(newDecision).topic, old(newDecision).options, None)]
      ensures newDecision == EmptyDecisionDraft
    {
      decisions := decisions + [Decision(id, newDecision.topic, newDecision.options, None)];
      newDecision := EmptyDecisionDraft;
    }

    /** `makeDecision`. */
    method MakeDecision(id: string, option: string)
      modifies this`decisions
      ensures decisions == Decided(old(decisions), id, option)
    {
      decisions := Decided(decisions, id, option);
    }

    /** Typing into the option field at `index`: that option alone is
        replaced in a copy of the options. */
    method EditOption(index: nat, value: string)
      requires index < |newDecision.options|
      modifies this`newDecision
      ensures newDecision == old(newDecision).(options := old(newDecision).options[index := value])
    {
      var newOptions := newDecision.options;
      newOptions := newOptions[index := value];
      newDecision := newDecision.(options := newOptions);
    }

    /** "Add option": exactly one empty option is appended to the form. */
    method AddOption()
      modifies this`newDecision
      ensures newDecision == old(newDecision).(options := old(newDecision).options + [""])
    {
      newDecision := newDecision.(options := newDecision.options + [""]);
    }
  }
}
