/**
 * The state of the dialog's form component: the four fields of its React
 * state, changed in place by the text field's change handler and by the
 * Create button. The project and the client dialog use the same component
 * shape (their name field is called `projectName` and `clientName`).
 */
module DialogForm {
  import opened Wrappers
  import opened NameSanitizer

  class NameForm {
    var isValid: bool
    var isLoading: bool
    var name: string
    var isDuplicate: bool

    /** The kept name always is a sanitised name. */
    ghost predicate Valid()
      reads this
    {
      |name| <= CharacterLimit && IsClean(name)
    }

    /** The Create button is enabled: `disabled={ !isValid || isLoading }` is false. */
    predicate CreateEnabled()
      reads this
    {
      isValid && !isLoading
    }

    /** The initial state: nothing typed, Create disabled. */
    constructor ()
      ensures Valid()
      ensures !isValid && !isLoading && name == "" && !isDuplicate
      ensures !CreateEnabled()
    {
      isValid, isLoading, name, isDuplicate := false, false, "", false;
    }

    /**
     * `inputOnChange(val)`: keep the sanitised name, judge validity on the raw
     * length, and clear the loading and duplicate flags.
     */
    method InputOnChange(val: string)
      modifies this
      ensures Valid()
      ensures name == Sanitize(val)
      ensures isValid == IsValidInput(val)
      ensures !isLoading && !isDuplicate
      ensures CreateEnabled() <==> |val| >= 1
    {
      isValid := IsValidInput(val);
      isLoading := false;
      name := Sanitize(val);
      isDuplicate := false;
    }

    /**
     * `submitClick()`: set the loading flag, keep every other field, and hand
     * the kept name to the dialog's submit handler. Its only caller is the
     * Create button, so it runs only while Create is enabled; afterwards Create
     * is disabled, so a second click cannot submit again.
     */
    method SubmitClick() returns (submitted: string)
      requires Valid() && CreateEnabled()
      modifies this
      ensures Valid()
      ensures isLoading
      ensures isValid == old(isValid) && name == old(name) && isDuplicate == old(isDuplicate)
      ensures submitted == name
      ensures |submitted| <= CharacterLimit && IsClean(submitted)
      ensures !CreateEnabled()
    {
      isLoading := true;
      submitted := name;
    }
  }

  /**
   * Typing `raw` and pressing Create: the button is enabled only for non-empty
   * text, and then the click submits exactly `Sanitize(raw)`; for empty text
   * the disabled button submits nothing.
   */
  method TypeAndSubmit(raw: string) returns (enabled: bool, submitted: Option<string>)
    ensures enabled <==> |raw| >= 1
    ensures submitted == if |raw| >= 1 then Some(Sanitize(raw)) else None
  {
    var form := new NameForm();
    form.InputOnChange(raw);
    enabled := form.CreateEnabled();
    if enabled {
      var name := form.SubmitClick();
      submitted := Some(name);
    } else {
      submitted := None;
    }
  }
}
