/**
 * What the engine hands to the outside world: the JSON body of a push to the
 * front end (`_push_to_frontend`) and the arguments of the streaming callback.
 * Delivery itself is not part of this model.
 */
module Frontend {
  import opened Wrappers

  /** `ROLE_COLOURS`: the fixed role-to-colour table. */
  const RoleColours: map<string, string> := map[
    "facilitator" := "#DC143C",
    "critic" := "#00FF00",
    "reasoner" := "#0088FF",
    "stateTracker" := "#FFFF00",
    "system" := "#FFFFFF",
    "error" := "#FF6600"
  ]

  /** The colour of a role the table does not list. */
  const DefaultColour := "#FFFFFF"

  /** `ROLE_COLOURS.get(role, "#FFFFFF")`; the lookup is case-sensitive. */
  function RoleColour(role: string): string {
    if role in RoleColours then RoleColours[role] else DefaultColour
  }

  /** The roles whose colour differs from the default white. */
  const ColouredRoles: set<string> := {"facilitator", "critic", "reasoner", "stateTracker", "error"}

  /**
   * The colour tells the coloured roles apart: each has its own colour, none of
   * them white, and every other role (including "system") is shown in white.
   */
  lemma ColoursIdentifyRoles(a: string, b: string)
    ensures a in ColouredRoles && b in ColouredRoles && RoleColour(a) == RoleColour(b) ==> a == b
    ensures RoleColour(a) != DefaultColour <==> a in ColouredRoles
  {
  }

  /** The displayed text: `f"[{model}] {message}" if model else message`. */
  function DisplayText(model: string, message: string): string {
    if model != "" then ModelTag(model) + message else message
  }

  /** The tag `DisplayText` puts before the message of a model: `"[" + model + "] "`. */
  function ModelTag(model: string): string {
    "[" + model + "] "
  }

  /**
   * Reads a display text back, given the model it was tagged with: the text
   * itself when the model is empty, otherwise what follows the model's tag,
   * and nothing when the text does not start with that tag.
   */
  function MessageOf(model: string, text: string): Option<string> {
    if model == "" then Some(text)
    else if ModelTag(model) <= text then Some(text[|ModelTag(model)|..])
    else None
  }

  /**
   * The model tag is a pure prefix: the message is always recoverable from what
   * is displayed, and the display text is the message itself when the model is empty.
   */
  lemma {:induction false} DisplayTextRoundTrip(model: string, message: string)
    ensures MessageOf(model, DisplayText(model, message)) == Some(message)
    ensures model == "" ==> DisplayText(model, message) == message
    ensures model != "" ==> |DisplayText(model, message)| == |model| + 3 + |message|
  {
    if model != "" {
      var t := DisplayText(model, message);
      assert t == ModelTag(model) + message;
      assert |ModelTag(model)| == |model| + 3;
    }
  }

  /**
   * The other direction: a text that reads back as a message is exactly the
   * display text of that message, so a text without the model's tag is not a
   * display text of that model at all.
   */
  lemma {:induction false} MessageOfDisplayText(model: string, text: string)
    ensures MessageOf(model, text).Some? ==> DisplayText(model, MessageOf(model, text).value) == text
    ensures model != "" && !(ModelTag(model) <= text) ==> forall m :: DisplayText(model, m) != text
  {
    if model != "" {
      var tag := ModelTag(model);
      if tag <= text {
        assert tag + text[|tag|..] == text;
      } else {
        forall m
          ensures DisplayText(model, m) != text
        {
          assert (tag + m)[..|tag|] == tag;
        }
      }
    }
  }

  /** One observable side effect of the engine. */
  datatype Event =
    | Push(role: string, message: string, colour: string)       // the JSON body POSTed to /api/message
    | Callback(role: string, message: string, model: string)    // one `on_message(role, message, model)` call

  /** `_push_to_frontend(role, message, model)`: the body it posts. */
  function PushOf(role: string, message: string, model: string): (e: Event)
    ensures e.Push? && e.role == role
    ensures e.colour == RoleColour(role)
    ensures e.colour == DefaultColour <==> role !in ColouredRoles
    ensures MessageOf(model, e.message) == Some(message)
  {
    ColoursIdentifyRoles(role, role);
    DisplayTextRoundTrip(model, message);
    Push(role, DisplayText(model, message), RoleColour(role))
  }

}
