/** The message composer (components/MessageInput.tsx). */
module MessageInput {
  import opened Types
  import opened JsString

  /** What `handleSend` passes to onSendMessage for the draft `text`: the trimmed draft,
      when it is not blank and the input is enabled; otherwise nothing. */
  function Outgoing(text: string, disabled: bool): (r: Option<string>)
    ensures r.Some? <==> !IsBlank(text) && !disabled
    ensures r.Some? ==> r.value == Trim(text) && r.value != [] && IsTrimmed(r.value)
  {
    if Trim(text) != "" && !disabled then Some(Trim(text)) else None
  }

  /** The send button's `disabled`: exactly when pressing it would send nothing. */
  function SendDisabled(text: string, disabled: bool): (r: bool)
    ensures r <==> IsBlank(text) || disabled
    ensures r <==> Outgoing(text, disabled).None?
  {
    Trim(text) == "" || disabled
  }

  /** Enter without Shift takes the send path. */
  predicate SubmitsOnKey(key: string, shiftKey: bool)
  {
    key == "Enter" && !shiftKey
  }

  class MessageInputBox {
    /** The `text` state: the draft. */
    var text: string

    constructor ()
      ensures text == ""
    {
      text := "";
    }

    /** `onChange` of the textarea. */
    method Change(value: string)
      modifies this
      ensures text == value
    {
      text := value;
    }

    /** `handleSend`: an accepted send passes the trimmed draft on and clears the draft; a
        refused one leaves the draft as it is. */
    method HandleSend(disabled: bool) returns (sent: Option<string>)
      modifies this
      ensures sent == Outgoing(old(text), disabled)
      ensures text == if sent.Some? then "" else old(text)
    {
      var trimmed := Trim(text);
      if trimmed != "" && !disabled {
        sent := Some(trimmed);
        text := "";
      } else {
        sent := None;
      }
    }

    /** `handleKeyDown`: Enter without Shift runs `handleSend`; any other key sends nothing
        and leaves the draft alone. */
    method HandleKeyDown(key: string, shiftKey: bool, disabled: bool) returns (sent: Option<string>)
      modifies this
      ensures SubmitsOnKey(key, shiftKey) ==> sent == Outgoing(old(text), disabled)
      ensures SubmitsOnKey(key, shiftKey) ==> text == if sent.Some? then "" else old(text)
      ensures !SubmitsOnKey(key, shiftKey) ==> sent == None && text == old(text)
    {
      if key == "Enter" && !shiftKey {
        sent := HandleSend(disabled);
      } else {
        sent := None;
      }
    }
  }
}
