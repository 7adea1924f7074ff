/** The form component: its rule set over the three fields, and what a
    submission does to the store. */
module ProjectInput {
  import opened Wrappers
  import opened Strings
  import opened Validation
  import opened Projects
  import opened Store

  /** The values `validateInput` hands back: the fields as typed (untrimmed). */
  datatype UserInput = UserInput(title: string, description: string, people: int)

  /** `{value: title, required: true, minLength: 3}`. */
  function TitleRule(title: string): (rule: Validatable)
    ensures Validate(rule) <==> Utf16Length(Trim(title)) >= 3
  {
    Validatable(Text(title), true, None, None, Some(3), None)
  }

  /** `{value: description, required: true, minLength: 10, maxLength: 100}`. */
  function DescriptionRule(description: string): (rule: Validatable)
    ensures Validate(rule) <==> 10 <= Utf16Length(Trim(description)) <= 100
  {
    Validatable(Text(description), true, None, None, Some(10), Some(100))
  }

  /** `{value: people, required: true, min: 1, max: 100}`. */
  function PeopleRule(people: int): (rule: Validatable)
    ensures Validate(rule) <==> 1 <= people <= 100
  {
    Validatable(Number(people), true, Some(1), Some(100), None, None)
  }

  /** `validateInput`: the three values when the title, the description and
      the people count all pass their rules, nothing otherwise. */
  function ValidateInput(title: string, description: string, people: int): (r: Option<UserInput>)
    ensures r.Some? <==>
      Utf16Length(Trim(title)) >= 3
      && 10 <= Utf16Length(Trim(description)) <= 100
      && 1 <= people <= 100
    ensures r.Some? ==> r.value == UserInput(title, description, people)
  {
    if Validate(TitleRule(title)) && Validate(DescriptionRule(description)) && Validate(PeopleRule(people))
    then Some(UserInput(title, description, people))
    else None
  }

  /** A title of whitespace only is rejected whatever the other fields hold. */
  lemma BlankTitleRejected(title: string, description: string, people: int)
    requires forall i :: 0 <= i < |title| ==> IsWhitespace(title[i])
    ensures ValidateInput(title, description, people) == None
  {
  }

  /** `submit`: on valid input, adds a new active project with the given id
      (one notification round follows); on invalid input the store is not
      touched. */
  method Submit(state: ProjectState, title: string, description: string, people: int, id: string)
    returns (added: bool)
    requires state.Valid()
    modifies state
    ensures state.Valid()
    ensures added <==> ValidateInput(title, description, people).Some?
    ensures state.listeners == old(state.listeners)
    ensures added ==>
      state.projects == old(state.projects) + [Project(title, description, people, Active, id)]
      && state.notifications == old(state.notifications) + Round(state.listeners, state.projects)
    ensures !added ==>
      state.projects == old(state.projects) && state.notifications == old(state.notifications)
  {
    var userInput := ValidateInput(title, description, people);
    added := userInput.Some?;
    if added {
      var input := userInput.value;
      state.AddProject(Project(input.title, input.description, input.people, Active, id));
    }
  }
}
