/** The two project lists: each registers one listener with the store and
    shows the projects of its own status from the list it was last handed. */
module ProjectLists {
  import opened Wrappers
  import opened Projects
  import opened Store

  datatype ProjectList = ProjectList(listener: ListenerId, status: ProjectType)

  /** Position in `log` of the most recent call to `listener`, if any. */
  function LastCall(listener: ListenerId, log: seq<Notification>): (r: Option<nat>)
    ensures r.None? ==> forall k :: 0 <= k < |log| ==> log[k].listener != listener
    ensures r.Some? ==> r.value < |log| && log[r.value].listener == listener
    ensures r.Some? ==> forall j :: r.value < j < |log| ==> log[j].listener != listener
  {
    if |log| == 0 then None
    else if log[|log| - 1].listener == listener then Some(|log| - 1)
    else LastCall(listener, log[..|log| - 1])
  }

  /** What `list` shows after the calls in `log`: the filter of the list its
      listener most recently received, or nothing if it was never called. */
  function Shown(list: ProjectList, log: seq<Notification>): (r: Option<seq<Project>>)
    ensures r.None? <==> forall k :: 0 <= k < |log| ==> log[k].listener != list.listener
    ensures r.Some? ==>
      exists k :: 0 <= k < |log| && log[k].listener == list.listener
        && r.value == Filter(log[k].projects, list.status)
        && forall j :: k < j < |log| ==> log[j].listener != list.listener
  {
    match LastCall(list.listener, log)
    case None => None
    case Some(k) => Some(Filter(log[k].projects, list.status))
  }

  /** After a notification round, every registered list shows exactly the
      store's projects of its status, in store order. */
  lemma {:induction false} ShownAfterRound(
    list: ProjectList, before: seq<Notification>, listeners: seq<ListenerId>, projects: seq<Project>)
    requires list.listener in listeners
    ensures Shown(list, before + Round(listeners, projects)) == Some(Filter(projects, list.status))
  {
    var last := |listeners| - 1;
    var log := before + Round(listeners, projects);
    assert log == before + Round(listeners[..last], projects) + [Notification(listeners[last], projects)];
    assert log[..|log| - 1] == before + Round(listeners[..last], projects);
    if listeners[last] != list.listener {
      assert list.listener in listeners[..last] by {
        var k :| 0 <= k < |listeners| && listeners[k] == list.listener;
        assert k < last && listeners[..last][k] == list.listener;
      }
      ShownAfterRound(list, before, listeners[..last], projects);
    }
  }

  /** Filtering two active projects and one finished one. */
  lemma ThreeProjectsFiltered(first: Project, second: Project, third: Project)
    requires first.status == Active && second.status == Active && third.status == Finished
    ensures |Filter([first, second, third], Active)| == 2
    ensures |Filter([first, second, third], Finished)| == 1
  {
    assert [first, second, third] == [first] + [second] + [third];
    FilterAppend([first] + [second], [third], Active);
    FilterAppend([first], [second], Active);
    FilterAppend([first] + [second], [third], Finished);
    FilterAppend([first], [second], Finished);
    assert [first][1..] == [] && [second][1..] == [] && [third][1..] == [];
  }

  /** Two active projects and one finished one are added with the active
      list and the finished list registered: the active list then shows
      two projects and the finished list one. */
  method ThreeProjects() returns (activeShown: nat, finishedShown: nat)
    ensures activeShown == 2 && finishedShown == 1
  {
    var holder := new StateHolder();
    var state := holder.CreateState();
    var activeList := ProjectList(0, Active);
    var finishedList := ProjectList(1, Finished);
    state.AddListener(activeList.listener);
    state.AddListener(finishedList.listener);
    var first := Project("Site", "Build the new site", 3, Active, "1");
    var second := Project("Docs", "Write the user guide", 2, Active, "2");
    var third := Project("Audit", "Review last year's accounts", 1, Finished, "3");
    state.AddProject(first);
    state.AddProject(second);
    var before := state.notifications;
    state.AddProject(third);
    var projects, listeners := state.projects, state.listeners;
    assert projects == [first, second, third];
    assert listeners == [0, 1];
    ShownAfterRound(activeList, before, listeners, projects);
    ShownAfterRound(finishedList, before, listeners, projects);
    ThreeProjectsFiltered(first, second, third);
    activeShown := |Shown(activeList, state.notifications).value|;
    finishedShown := |Shown(finishedList, state.notifications).value|;
  }
}
