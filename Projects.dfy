/** The `Project` record, the status filter each project list applies to the
    store's contents, and the "n person(s) assigned" label of a list item. */
module Projects {
  import opened Wrappers
  import opened Decimal

  /** `type ProjectType = "active" | "finished"`. */
  datatype ProjectType = Active | Finished

  /** A project; `status` is the record's `type` field, and `id` is supplied
      by the caller (the source draws it at random). */
  datatype Project = Project(
    title: string,
    description: string,
    people: int,
    status: ProjectType,
    id: string)

  /** `projects.filter(project => project.type === status)`. */
  function Filter(projects: seq<Project>, status: ProjectType): (r: seq<Project>)
    ensures |r| <= |projects|
    ensures forall p :: p in r <==> p in projects && p.status == status
  {
    if |projects| == 0 then []
    else if projects[0].status == status then [projects[0]] + Filter(projects[1..], status)
    else Filter(projects[1..], status)
  }

  /** Filtering splits over concatenation: the kept projects stay in store order. */
  lemma {:induction false} FilterAppend(a: seq<Project>, b: seq<Project>, status: ProjectType)
    ensures Filter(a + b, status) == Filter(a, status) + Filter(b, status)
  {
    if |a| == 0 {
      assert a + b == b;
    } else {
      assert (a + b)[0] == a[0];
      assert (a + b)[1..] == a[1..] + b;
      FilterAppend(a[1..], b, status);
    }
  }

  /** Each project of the right status is kept as often as it occurs, and no
      other project is kept. */
  lemma {:induction false} FilterMultiplicity(projects: seq<Project>, status: ProjectType, p: Project)
    ensures multiset(Filter(projects, status))[p]
      == if p.status == status then multiset(projects)[p] else 0
  {
    if |projects| > 0 {
      assert projects == [projects[0]] + projects[1..];
      FilterMultiplicity(projects[1..], status, p);
    }
  }

  /** The active and the finished list together show every project once. */
  lemma {:induction false} FilterPartition(projects: seq<Project>)
    ensures |Filter(projects, Active)| + |Filter(projects, Finished)| == |projects|
  {
    if |projects| > 0 {
      FilterPartition(projects[1..]);
    }
  }

  /** Adding a project extends the view of the list of its status by exactly
      that project and leaves the view of the other list as it was. */
  lemma AddedProjectView(projects: seq<Project>, p: Project, status: ProjectType)
    ensures Filter(projects + [p], status)
      == if p.status == status then Filter(projects, status) + [p] else Filter(projects, status)
  {
    FilterAppend(projects, [p], status);
    assert Filter([p], status) == (if p.status == status then [p] else []) by {
      assert [p][1..] == [];
    }
  }

  /** Position of the first space in `s`, if any. */
  function IndexOfSpace(s: string): (r: Option<nat>)
    ensures r.Some? ==> r.value < |s| && s[r.value] == ' '
    ensures r.Some? ==> forall i :: 0 <= i < r.value ==> s[i] != ' '
    ensures r.None? ==> forall i :: 0 <= i < |s| ==> s[i] != ' '
  {
    if |s| == 0 then None
    else if s[0] == ' ' then Some(0)
    else match IndexOfSpace(s[1..])
      case Some(k) => Some(k + 1)
      case None => None
  }

  /** Reads a label back: the number before the first space, followed by the
      singular wording for counts up to one and the plural wording above. */
  function ParsePersonLabel(shown: string): (r: Option<int>)
  {
    match IndexOfSpace(shown)
    case None => None
    case Some(k) =>
      match ParseInt(shown[..k])
      case None => None
      case Some(n) =>
        var wording := shown[k..];
        if (n <= 1 && wording == " person assigned") || (n > 1 && wording == " persons assigned")
        then Some(n) else None
  }

  /** A number followed by its matching wording reads back as that number. */
  lemma ReadLabel(people: int, wording: string)
    requires wording == if people <= 1 then " person assigned" else " persons assigned"
    ensures ParsePersonLabel(IntToString(people) + wording) == Some(people)
  {
    var number := IntToString(people);
    var shown := number + wording;
    assert shown[|number|] == ' ';
    assert IndexOfSpace(shown) == Some(|number|);
    assert shown[..|number|] == number;
    assert shown[|number|..] == wording;
    IntToStringRoundTrip(people);
  }

  /** The `person` getter of a list item: the label states the count, with
      "person" for at most one and "persons" otherwise. */
  function PersonLabel(people: int): (shown: string)
    ensures ParsePersonLabel(shown) == Some(people)
  {
    if people <= 1 then
      ReadLabel(people, " person assigned");
      IntToString(people) + " person assigned"
    else
      ReadLabel(people, " persons assigned");
      IntToString(people) + " persons assigned"
  }

  /** A count spelled with a leading zero or as "-0" is not a label. */
  lemma NonCanonicalLabelsRejected()
    ensures ParsePersonLabel("05 persons assigned") == None
    ensures ParsePersonLabel("-0 person assigned") == None
  {
    assert IndexOfSpace("05 persons assigned") == Some(2);
    assert "05 persons assigned"[..2] == "05";
    assert ParseNat("05") == None;
    assert IndexOfSpace("-0 person assigned") == Some(2);
    assert "-0 person assigned"[..2] == "-0";
    assert "-0"[1..] == "0";
    assert DigitsValue("0") == 0;
  }

  /** Distinct counts give distinct labels. */
  lemma PersonLabelInjective(n: int, m: int)
    requires PersonLabel(n) == PersonLabel(m)
    ensures n == m
  {
  }
}
