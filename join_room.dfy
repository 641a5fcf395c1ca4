/** The room form (components/JoinRoom.tsx). */
module JoinRoom {
  import opened Types
  import opened JsString

  /** The room id handed to onJoin: `input.trim().toLowerCase()`. It is empty exactly when the
      input is blank, has no whitespace at either end, and holds no upper-case letter. */
  function Normalize(input: string): (id: string)
    ensures id == [] <==> IsBlank(input)
    ensures IsTrimmed(id)
    ensures forall i :: 0 <= i < |id| ==> !IsUpper(id[i])
  {
    var t := Trim(input);
    LowerKeepsTrimmed(t);
    ToLower(t)
  }

  /** Normalising a normalised id changes nothing. */
  lemma {:induction false} NormalizeIdempotent(input: string)
    ensures Normalize(Normalize(input)) == Normalize(input)
  {
    var id := Normalize(input);
    TrimOfTrimmed(id);
    LowerIdempotent(Trim(input));
  }

  /** What the user types and what they mean yield the same room. */
  lemma SecretRoomExample()
    ensures Normalize("Secret Room ") == Normalize("secret room") == "secret room"
  {
    var typed, meant := "Secret Room ", "secret room";
    TypedRoomTrims();
    TypedRoomLowers();
    assert Normalize(typed) == meant;
    TrimOfTrimmed(meant);
    LowerIdempotent("Secret Room");
    assert Normalize(meant) == ToLower(meant) == meant;
  }

  lemma TypedRoomTrims()
    ensures Trim("Secret Room ") == "Secret Room"
  {
    assert "Secret Room " == "Secret Room" + [' '];
    TrimDropsTrailingWhitespace("Secret Room", ' ');
  }

  lemma TypedRoomLowers()
    ensures ToLower("Secret Room") == "secret room"
  {
    var lowered := ToLower("Secret Room");
    forall i | 0 <= i < 11 ensures lowered[i] == "secret room"[i] {
      assert lowered[i] == LowerChar("Secret Room"[i]);
    }
  }

  /** The submit button's `disabled`: exactly when the input is blank. */
  function SubmitDisabled(input: string): (r: bool)
    ensures r <==> IsBlank(input)
  {
    Trim(input) == ""
  }

  class JoinRoomForm {
    /** The `inputID` state. */
    var inputID: string

    constructor ()
      ensures inputID == ""
    {
      inputID := "";
    }

    /** `onChange` of the input. */
    method Change(value: string)
      modifies this
      ensures inputID == value
    {
      inputID := value;
    }

    /** `handleSubmit`: calls onJoin, with the normalised id, exactly when the button is
        enabled; the id is never empty and has no whitespace at either end. */
    method HandleSubmit() returns (joined: Option<string>)
      ensures joined.None? <==> SubmitDisabled(inputID)
      ensures joined.Some? ==> joined.value == Normalize(inputID) && joined.value != [] && IsTrimmed(joined.value)
    {
      if Trim(inputID) != "" {
        joined := Some(ToLower(Trim(inputID)));
      } else {
        joined := None;
      }
    }
  }
}
