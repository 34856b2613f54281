/**
 * The two halves of the NSUserNotification bridge together: what the
 * Objective-C delegate writes into `actionData` and what the Rust decoders
 * make of it.
 */
module Bridge {
  import opened Wrappers
  import D = NotifyDelegate
  import LN = LegacyNotification
  import LL = LegacyLib

  /** The title of the button an action click reports. */
  function ClickedTitle(n: D.UserNotification): string
    requires D.ActionClickData(n).Some?
  {
    var titles := n.alternateActionButtonTitles;
    if |titles| <= 1 || n.alternateActionIndex == D.LongMax then n.actionButtonTitle
    else titles[n.alternateActionIndex as int]
  }

  /** The response the delegate means to report for an activation it recorded. */
  function Meant(n: D.UserNotification): LN.NotificationResponse
    requires D.ActivationData(n).Some?
  {
    match n.activationType
    case ContentsClicked => LN.Click
    case Replied => LN.Reply(n.response)
    case ActionButtonClicked => LN.ActionButton(ClickedTitle(n))
    case AdditionalActionClicked => LN.ActionButton(ClickedTitle(n))
    case _ => LN.NoInteraction
  }

  /**
   * Every activation the delegate records decodes to the response it means:
   * a click on the body to `Click`, a reply to its text, an action to the
   * title of the button clicked (the main one at `LONG_MAX` or with at most
   * one alternate), and "none" to no interaction.
   */
  lemma ActivationDecodes(n: D.UserNotification)
    requires D.ActivationData(n).Some?
    ensures LN.FromDictionary(D.ActivationData(n).value) == Meant(n)
    ensures LL.FromDictionary(D.ActivationData(n).value) == LL.NoInteraction <==> Meant(n) == LN.NoInteraction
  {
    var data := D.ActivationData(n).value;
    assert D.ActivationTypeKey == "activationType" && D.ActivationValueKey == "activationValue";
    match n.activationType
    case ContentsClicked =>
    case Replied =>
    case ActionButtonClicked =>
    case AdditionalActionClicked =>
    case ActivationNone =>
      assert data[D.ActivationTypeKey] == "none";
    case OtherActivation(_) =>
      assert data[D.ActivationTypeKey] == "none";
  }

  /** A dismissed alert decodes to the close button's title. */
  lemma DismissDecodes(n: D.UserNotification)
    ensures LN.FromDictionary(D.DismissData(n)) == LN.CloseButton(n.otherButtonTitle)
    ensures LL.FromDictionary(D.DismissData(n)) == LL.CloseButton(n.otherButtonTitle)
  {
    assert D.ActivationTypeKey == "activationType" && D.ActivationValueKey == "activationValue";
  }

  /** The earlier decoder's answer, in the later decoder's terms. */
  function Renamed(r: LL.NotificationResponse): LN.NotificationResponse {
    match r
    case NoInteraction => LN.NoInteraction
    case ActionButton(name) => LN.ActionButton(name)
    case CloseButton(name) => LN.CloseButton(name)
    case Clicked => LN.Click
    case Replied(text) => LN.Reply(text)
  }

  /** The two revisions' decoders read every dictionary the same way. */
  lemma DecodersAgree(d: map<string, string>)
    ensures LN.FromDictionary(d) == Renamed(LL.FromDictionary(d))
  {
  }
}
