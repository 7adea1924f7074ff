/** `State<T>` and its one subclass `ProjectState`: an append-only list of
    projects and an append-only list of listeners, every one of which is
    called, in registration order, after each addition. */
module Store {
  import opened Projects

  /** A listener closure, known only by an identity; registering the same
      closure twice gives two entries with the same id. */
  type ListenerId = nat

  /** One call of a listener, with the project list it was handed. */
  datatype Notification = Notification(listener: ListenerId, projects: seq<Project>)

  /** One notification round: exactly one call per listener entry
      (duplicates included), the k-th call to the k-th entry, each with the
      full project list. */
  function Round(listeners: seq<ListenerId>, projects: seq<Project>): (r: seq<Notification>)
    ensures |r| == |listeners|
    ensures forall k :: 0 <= k < |listeners| ==> r[k] == Notification(listeners[k], projects)
  {
    if |listeners| == 0 then []
    else
      var last := |listeners| - 1;
      Round(listeners[..last], projects) + [Notification(listeners[last], projects)]
  }

  class ProjectState {
    /** `listeners`, inherited from `State<Project>`. */
    var listeners: seq<ListenerId>
    /** `projects`, in insertion order. */
    var projects: seq<Project>
    /** Every listener call made so far, oldest first. */
    var notifications: seq<Notification>

    /** The store only grows: every list a listener was ever handed is a
        prefix of the current list. */
    predicate Valid()
      reads this
    {
      forall k :: 0 <= k < |notifications| ==> notifications[k].projects <= projects
    }

    constructor()
      ensures Valid()
      ensures listeners == [] && projects == [] && notifications == []
    {
      listeners := [];
      projects := [];
      notifications := [];
    }

    /** `addListener`: appends, keeping duplicates. */
    method AddListener(listener: ListenerId)
      requires Valid()
      modifies this
      ensures Valid()
      ensures listeners == old(listeners) + [listener]
      ensures projects == old(projects) && notifications == old(notifications)
    {
      listeners := listeners + [listener];
    }

    /** `updateState`: calls every listener entry, in order, with the list. */
    method UpdateState()
      requires Valid()
      modifies this
      ensures Valid()
      ensures listeners == old(listeners) && projects == old(projects)
      ensures notifications == old(notifications) + Round(listeners, projects)
    {
      var i := 0;
      while i < |listeners|
        invariant 0 <= i <= |listeners|
        invariant listeners == old(listeners) && projects == old(projects)
        invariant notifications == old(notifications) + Round(listeners[..i], projects)
        invariant Valid()
      {
        assert listeners[..i + 1][..i] == listeners[..i];
        notifications := notifications + [Notification(listeners[i], projects)];
        i := i + 1;
      }
      assert listeners[..i] == listeners;
    }

    /** `addProject`: appends the project, then runs one notification round. */
    method AddProject(project: Project)
      requires Valid()
      modifies this
      ensures Valid()
      ensures projects == old(projects) + [project]
      ensures listeners == old(listeners)
      ensures notifications == old(notifications) + Round(listeners, projects)
    {
      projects := projects + [project];
      UpdateState();
    }
  }

  /** The static `instance` slot of `ProjectState`. */
  class StateHolder {
    var instance: ProjectState?

    /** A stored instance keeps the store's own invariant. */
    predicate Valid()
      reads this, if instance != null then {instance} else {}
    {
      instance != null ==> instance.Valid()
    }

    constructor()
      ensures Valid() && instance == null
    {
      instance := null;
    }

    /** `createState`: the first call makes an empty store, every later call
        returns that same store. */
    method CreateState() returns (state: ProjectState)
      requires Valid()
      modifies this
      ensures Valid() && instance == state
      ensures old(instance) != null ==> state == old(instance)
      ensures old(instance) == null ==>
        fresh(state) && state.listeners == [] && state.projects == [] && state.notifications == []
    {
      if instance != null {
        return instance;
      }
      instance := new ProjectState();
      return instance;
    }
  }
}
