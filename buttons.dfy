/** The custom ids of the three buttons attached to an application message,
    and how the button handler reads the action and the application id back
    out of a pressed button's custom id. */
module Buttons {
  import opened Records

  datatype ButtonAction =
    | AcceptButton(id: string)
    | RejectButton(id: string)
    | ScreenshotButton(id: string)

  const AcceptPrefix: string := "accept-"
  const RejectPrefix: string := "reject-"
  const ScreenshotPrefix: string := "request-screenshot-"

  /** The custom id given to a button: its prefix followed by the id. */
  function ButtonId(b: ButtonAction): (s: string)
    ensures |b.id| < |s| && s[|s| - |b.id|..] == b.id
    ensures b.AcceptButton? ==> AcceptPrefix <= s
    ensures b.RejectButton? ==> RejectPrefix <= s
    ensures b.ScreenshotButton? ==> ScreenshotPrefix <= s
  {
    match b
    case AcceptButton(id) => AcceptPrefix + id
    case RejectButton(id) => RejectPrefix + id
    case ScreenshotButton(id) => ScreenshotPrefix + id
  }

  /** The prefixes are tried in the order accept, reject, screenshot; the id
      is what follows the prefix (the first occurrence `replace` removes is
      the prefix itself). Any other custom id selects no action. */
  function ParseButtonId(customId: string): (r: Option<ButtonAction>)
    ensures r.Some? ==> ButtonId(r.value) == customId
    ensures r.None? <==> !(AcceptPrefix <= customId || RejectPrefix <= customId || ScreenshotPrefix <= customId)
  {
    if AcceptPrefix <= customId then Some(AcceptButton(customId[|AcceptPrefix|..]))
    else if RejectPrefix <= customId then Some(RejectButton(customId[|RejectPrefix|..]))
    else if ScreenshotPrefix <= customId then Some(ScreenshotButton(customId[|ScreenshotPrefix|..]))
    else None
  }

  /** Every button built for an application is read back as the same action
      on the same id: no prefix shadows another. */
  lemma ParseButtonIdRoundTrip(b: ButtonAction)
    ensures ParseButtonId(ButtonId(b)) == Some(b)
  {
    var c := ButtonId(b);
    match b
    case AcceptButton(id) =>
      assert c[|AcceptPrefix|..] == id;
    case RejectButton(id) =>
      assert c[0] != AcceptPrefix[0];
      assert c[|RejectPrefix|..] == id;
    case ScreenshotButton(id) =>
      assert c[0] != AcceptPrefix[0];
      assert c[2] != RejectPrefix[2];
      assert c[|ScreenshotPrefix|..] == id;
  }
}
