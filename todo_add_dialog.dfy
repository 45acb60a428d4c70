/**
 * The `TodoAddDialog` form: content, priority and a due date that the parent can preset,
 * reset whenever the dialog closes.
 */
module TodoAddDialogForm {
  import opened Wrappers
  import opened JsText
  import opened TodoTypes

  /** The argument of `onAdd`: the create input plus the chosen due date. */
  datatype AddRequest = AddRequest(input: CreateTodoInput, dueDate: Timestamp)

  /** `isValid`: trimmed content is non-empty and a due date is chosen. */
  function IsValidForm(content: string, dueDate: Option<Timestamp>): (r: bool)
    ensures r <==> !IsBlank(content) && dueDate.Some?
  {
    TrimEmptyIffBlank(content);
    |Trim(content)| > 0 && dueDate.Some?
  }

  /** What a submit hands to `onAdd`: nothing unless the form is valid. */
  function RequestOf(content: string, priority: Priority, dueDate: Option<Timestamp>): (r: Option<AddRequest>)
    ensures r.Some? <==> IsValidForm(content, dueDate)
    ensures r.Some? ==> && r.value.input == CreateTodoInput(Trim(content), false, priority)
                        && r.value.input.content != "" && r.value.dueDate == dueDate.value
  {
    if IsValidForm(content, dueDate) then Some(AddRequest(CreateTodoInput(Trim(content), false, priority), dueDate.value))
    else None
  }

  /** The dialog's state together with the props its effects compare. */
  class TodoAddDialog {
    var content: string
    var priority: Priority
    var dueDate: Option<Timestamp>
    var isOpen: bool
    var preselectedDate: Option<Timestamp>

    /**
     * The first render and its effects: the due date starts as the preset date or the clock
     * reading `now`; the preset effect sets it again, and a closed dialog then resets it to
     * the second clock reading `later`.
     */
    constructor(isOpen: bool, preselectedDate: Option<Timestamp>, now: Timestamp, later: Timestamp)
      ensures this.isOpen == isOpen && this.preselectedDate == preselectedDate
      ensures content == "" && priority == Medium
      ensures dueDate == if !isOpen then Some(later) else Some(preselectedDate.GetOr(now))
    {
      this.isOpen := isOpen;
      this.preselectedDate := preselectedDate;
      content := "";
      priority := Medium;
      dueDate := Some(preselectedDate.GetOr(now));
      if preselectedDate.Some? {
        dueDate := preselectedDate;
      }
      if !isOpen {
        dueDate := Some(later);
      }
    }

    /** `onChange` of the text area. */
    method ChangeContent(value: string)
      modifies this
      ensures content == value
      ensures priority == old(priority) && dueDate == old(dueDate)
      ensures isOpen == old(isOpen) && preselectedDate == old(preselectedDate)
    {
      content := value;
    }

    /** `onValueChange` of the select. */
    method ChangePriority(p: Priority)
      modifies this
      ensures priority == p
      ensures content == old(content) && dueDate == old(dueDate)
      ensures isOpen == old(isOpen) && preselectedDate == old(preselectedDate)
    {
      priority := p;
    }

    /** `onSelect` of the calendar; `None` when the chosen day is clicked again and deselected. */
    method SelectDate(d: Option<Timestamp>)
      modifies this
      ensures dueDate == d
      ensures content == old(content) && priority == old(priority)
      ensures isOpen == old(isOpen) && preselectedDate == old(preselectedDate)
    {
      dueDate := d;
    }

    /**
     * A re-render with new props, and the effects whose dependency changed: a changed,
     * defined preset date overwrites the due date; a change to closed resets the form with
     * the clock reading `now`.
     */
    method ReceiveProps(open: bool, preset: Option<Timestamp>, now: Timestamp)
      modifies this
      ensures isOpen == open && preselectedDate == preset
      ensures open != old(isOpen) && !open ==> content == "" && priority == Medium && dueDate == Some(now)
      ensures !(open != old(isOpen) && !open) ==> content == old(content) && priority == old(priority)
      ensures !(open != old(isOpen) && !open) ==>
                dueDate == if preset != old(preselectedDate) && preset.Some? then preset else old(dueDate)
    {
      var presetChanged := preset != preselectedDate;
      var openChanged := open != isOpen;
      isOpen := open;
      preselectedDate := preset;
      if presetChanged && preset.Some? {
        dueDate := preset;
      }
      if openChanged && !open {
        content := "";
        priority := Medium;
        dueDate := Some(now);
      }
    }

    /**
     * `handleSubmit`: an invalid form calls nothing; a valid one calls `onAdd` with the request
     * and then `onClose`. Its own state is left for the close effect to reset.
     */
    method HandleSubmit() returns (request: Option<AddRequest>, closeRequested: bool)
      ensures request == RequestOf(content, priority, dueDate)
      ensures closeRequested <==> IsValidForm(content, dueDate)
    {
      if !IsValidForm(content, dueDate) {
        return None, false;
      }
      request := Some(AddRequest(CreateTodoInput(Trim(content), false, priority), dueDate.value));
      closeRequested := true;
    }
  }
}
