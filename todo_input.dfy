/** The `TodoInput` form: a content box and a priority select that submit together. */
module TodoInputForm {
  import opened Wrappers
  import opened JsText
  import opened TodoTypes

  /** The arguments of one `onAddTodo(content, priority)` call. */
  datatype Submission = Submission(content: string, priority: Priority)

  /** What a submit of `content` at `priority` hands to `onAddTodo`: nothing when the content is blank. */
  function SubmissionOf(content: string, priority: Priority): (r: Option<Submission>)
    ensures r.None? <==> IsBlank(content)
    ensures r.Some? ==> r.value == Submission(Trim(content), priority) && r.value.content != ""
  {
    TrimEmptyIffBlank(content);
    var trimmed := Trim(content);
    if trimmed == "" then None else Some(Submission(trimmed, priority))
  }

  /** `disabled || !content.trim()`: the rule that greys out the button. */
  function SubmitDisabled(disabled: bool, content: string): (r: bool)
    ensures r <==> disabled || IsBlank(content)
  {
    TrimEmptyIffBlank(content);
    disabled || Trim(content) == ""
  }

  /** An enabled button means a submit calls `onAddTodo`. */
  lemma EnabledButtonSubmits(disabled: bool, content: string, priority: Priority)
    ensures !SubmitDisabled(disabled, content) ==> SubmissionOf(content, priority).Some?
    ensures !disabled ==> (SubmitDisabled(disabled, content) <==> SubmissionOf(content, priority).None?)
  {
  }

  /** Whether a key event submits: Enter without Shift. */
  function SubmitsOnKey(key: string, shiftKey: bool): (b: bool)
    ensures b ==> key == "Enter"
    ensures shiftKey ==> !b
    ensures key == "Enter" && !shiftKey ==> b
  {
    key == "Enter" && !shiftKey
  }

  /** The component's state. */
  class TodoInput {
    var content: string
    var priority: Priority
    const disabled: bool

    /** The first render: an empty box and medium priority. */
    constructor(disabled: bool)
      ensures content == "" && priority == Medium && this.disabled == disabled
    {
      content := "";
      priority := Medium;
      this.disabled := disabled;
    }

    /** `onChange` of the box. */
    method ChangeContent(value: string)
      modifies this
      ensures content == value && priority == old(priority)
    {
      content := value;
    }

    /** `onValueChange` of the select. */
    method ChangePriority(p: Priority)
      modifies this
      ensures priority == p && content == old(content)
    {
      priority := p;
    }

    /**
     * `handleSubmit`: blank content does nothing; otherwise `onAddTodo` is called once, with
     * the trimmed content and the current priority, and the form is reset.
     */
    method HandleSubmit() returns (call: Option<Submission>)
      modifies this
      ensures call == SubmissionOf(old(content), old(priority))
      ensures call.None? ==> content == old(content) && priority == old(priority)
      ensures call.Some? ==> content == "" && priority == Medium
    {
      var trimmed := Trim(content);
      if trimmed == "" {
        return None;
      }
      call := Some(Submission(trimmed, priority));
      content := "";
      priority := Medium;
    }

    /** `handleKeyDown`: Enter without Shift submits; any other key changes nothing. */
    method HandleKeyDown(key: string, shiftKey: bool) returns (call: Option<Submission>)
      modifies this
      ensures SubmitsOnKey(key, shiftKey) ==> call == SubmissionOf(old(content), old(priority))
      ensures !SubmitsOnKey(key, shiftKey) ==> call.None? && content == old(content) && priority == old(priority)
      ensures call.Some? ==> content == "" && priority == Medium
      ensures call.None? ==> content == old(content) && priority == old(priority)
    {
      if SubmitsOnKey(key, shiftKey) {
        call := HandleSubmit();
      } else {
        call := None;
      }
    }
  }
}
