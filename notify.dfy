/**
 * The Objective-C side of the NSUserNotification bridge: the delegate that
 * records how a notification was answered in an `actionData` dictionary and
 * clears `keepRunning`, the notification center it removes notifications
 * from, and the swizzled `bundleIdentifier` getter.
 *
 * An `NSUserNotification` is the record of the properties the delegate
 * reads; the private `_alternateActionButtonTitles` and
 * `_alternateActionIndex` values are fields of it.
 */
module NotifyDelegate {
  import opened Wrappers
  import Text

  newtype u64 = x: int | 0 <= x < 0x1_0000_0000_0000_0000

  /** `LONG_MAX` on a 64-bit system, the index reported when the main action button itself was clicked. */
  const LongMax: u64 := 0x7FFF_FFFF_FFFF_FFFF

  /** `NSUserNotificationActivationType`; `OtherActivation` covers any value outside the enumeration. */
  datatype ActivationType =
    | ActivationNone
    | ContentsClicked
    | ActionButtonClicked
    | Replied
    | AdditionalActionClicked
    | OtherActivation(code: int)

  datatype UserNotification = UserNotification(
    hasActionButton: bool,
    hasReplyButton: bool,
    activationType: ActivationType,
    actionButtonTitle: string,
    otherButtonTitle: string,
    alternateActionButtonTitles: seq<string>,
    alternateActionIndex: u64,
    response: string)

  const ActivationTypeKey := "activationType"
  const ActivationValueKey := "activationValue"
  const ActivationValueIndexKey := "activationValueIndex"

  /**
   * The dictionary for a click on the action button or one of its
   * alternates.  With more than one alternate title the index picks the
   * title and is reported in decimal, unless it is `LONG_MAX`; an index past
   * the titles makes the array access raise, shown as `None`.
   */
  function ActionClickData(n: UserNotification): (r: Option<map<string, string>>)
    ensures r.None? <==> |n.alternateActionButtonTitles| > 1 && n.alternateActionIndex != LongMax
                         && n.alternateActionIndex as int >= |n.alternateActionButtonTitles|
    ensures r.Some? ==> ActivationTypeKey in r.value && r.value[ActivationTypeKey] == "actionClicked"
    ensures |n.alternateActionButtonTitles| <= 1 || n.alternateActionIndex == LongMax
            ==> r == Some(map[ActivationTypeKey := "actionClicked", ActivationValueKey := n.actionButtonTitle])
    ensures |n.alternateActionButtonTitles| > 1 && n.alternateActionIndex != LongMax && r.Some?
            ==> var i := n.alternateActionIndex as int;
                r.value.Keys == {ActivationTypeKey, ActivationValueKey, ActivationValueIndexKey}
                && r.value[ActivationValueKey] == n.alternateActionButtonTitles[i]
                && r.value[ActivationValueIndexKey] == Text.IntToDecimal(i)
  {
    var titles := n.alternateActionButtonTitles;
    if |titles| > 1 then
      var index := n.alternateActionIndex;
      if index == LongMax then
        Some(map[ActivationTypeKey := "actionClicked", ActivationValueKey := n.actionButtonTitle])
      else if index as int < |titles| then
        Some(map[ActivationTypeKey := "actionClicked", ActivationValueKey := titles[index],
                 ActivationValueIndexKey := Text.IntToDecimal(index as int)])
      else None
    else
      Some(map[ActivationTypeKey := "actionClicked", ActivationValueKey := n.actionButtonTitle])
  }

  /** The `actionData` that `didActivateNotification` records, or `None` when it raises. */
  function ActivationData(n: UserNotification): (r: Option<map<string, string>>)
    ensures n.activationType == ContentsClicked ==> r == Some(map[ActivationTypeKey := "contentsClicked"])
    ensures n.activationType == Replied
            ==> r == Some(map[ActivationTypeKey := "replied", ActivationValueKey := n.response])
    ensures n.activationType.ActivationNone? || n.activationType.OtherActivation?
            ==> r == Some(map[ActivationTypeKey := "none"])
    ensures n.activationType == ActionButtonClicked || n.activationType == AdditionalActionClicked
            ==> r == ActionClickData(n)
  {
    match n.activationType
    case ActionButtonClicked => ActionClickData(n)
    case AdditionalActionClicked => ActionClickData(n)
    case ContentsClicked => Some(map[ActivationTypeKey := "contentsClicked"])
    case Replied => Some(map[ActivationTypeKey := "replied", ActivationValueKey := n.response])
    case _ => Some(map[ActivationTypeKey := "none"])
  }

  /** The `actionData` that `didDismissAlert` records. */
  function DismissData(n: UserNotification): (d: map<string, string>)
    ensures d.Keys == {ActivationTypeKey, ActivationValueKey}
    ensures d[ActivationTypeKey] == "closeClicked" && d[ActivationValueKey] == n.otherButtonTitle
  {
    map[ActivationTypeKey := "closeClicked", ActivationValueKey := n.otherButtonTitle]
  }

  /** The delivered list without any copy of `n`, the others in their order. */
  function Without(delivered: seq<UserNotification>, n: UserNotification): (r: seq<UserNotification>)
    ensures forall m :: m in r <==> m in delivered && m != n
    ensures |r| <= |delivered|
  {
    if |delivered| == 0 then []
    else if delivered[0] == n then Without(delivered[1..], n)
    else [delivered[0]] + Without(delivered[1..], n)
  }

  /** The part of `NSUserNotificationCenter` the delegate touches: its delivered notifications. */
  class NotificationCenter {
    var delivered: seq<UserNotification>

    constructor (delivered: seq<UserNotification>)
      ensures this.delivered == delivered
    {
      this.delivered := delivered;
    }

    /** `removeDeliveredNotification:` */
    method RemoveDeliveredNotification(n: UserNotification)
      modifies this
      ensures delivered == Without(old(delivered), n)
    {
      delivered := Without(delivered, n);
    }
  }

  class NotificationCenterDelegate {
    var keepRunning: bool
    var actionData: Option<map<string, string>>

    constructor ()
      ensures keepRunning && actionData.None?
    {
      keepRunning, actionData := true, None;
    }

    /** Stops the run loop only when no answer can come: no action button and no reply field. */
    method DidDeliverNotification(center: NotificationCenter, n: UserNotification)
      modifies this
      ensures keepRunning == (if !n.hasActionButton && !n.hasReplyButton then false else old(keepRunning))
      ensures actionData == old(actionData)
    {
      if !n.hasActionButton && !n.hasReplyButton {
        keepRunning := false;
      }
    }

    /**
     * Records the activation, stops the run loop and removes the
     * notification.  `raised` reports the exception an out-of-range
     * alternate index causes, which leaves everything as it was.
     */
    method DidActivateNotification(center: NotificationCenter, n: UserNotification) returns (raised: bool)
      modifies this, center
      ensures raised <==> ActivationData(n).None?
      ensures raised ==> keepRunning == old(keepRunning) && actionData == old(actionData)
                         && center.delivered == old(center.delivered)
      ensures !raised ==> actionData == ActivationData(n) && !keepRunning
                          && center.delivered == Without(old(center.delivered), n)
    {
      var data := ActivationData(n);
      if data.None? {
        return true;
      }
      actionData := data;
      keepRunning := false;
      center.RemoveDeliveredNotification(n);
      raised := false;
    }

    /** A click on the close ("other") button: recorded, then the run loop stops and the notification goes. */
    method DidDismissAlert(center: NotificationCenter, n: UserNotification)
      modifies this, center
      ensures actionData == Some(DismissData(n)) && !keepRunning
      ensures center.delivered == Without(old(center.delivered), n)
    {
      actionData := Some(DismissData(n));
      keepRunning := false;
      center.RemoveDeliveredNotification(n);
    }
  }

  const TerminalBundle := "com.apple.Terminal"

  /**
   * The `NSBundle` swizzle: `exchanged` tells whether `bundleIdentifier` and
   * `__bundleIdentifier` have traded implementations, and
   * `fakeBundleIdentifier` is the global the application setter assigns.
   */
  class BundleHook {
    var exchanged: bool
    var fakeBundleIdentifier: Option<string>

    constructor (fake: Option<string>)
      ensures !exchanged && fakeBundleIdentifier == fake
    {
      exchanged, fakeBundleIdentifier := false, fake;
    }

    /** `installNSBundleHook`: exchanges the two implementations when the class is found. */
    method InstallNSBundleHook(classFound: bool) returns (ok: bool)
      modifies this
      ensures ok == classFound
      ensures exchanged == (if classFound then !old(exchanged) else old(exchanged))
      ensures fakeBundleIdentifier == old(fakeBundleIdentifier)
    {
      if classFound {
        exchanged := !exchanged;
      }
      ok := classFound;
    }

    /**
     * What `bundleIdentifier` answers once the hook is in place: the main
     * bundle reports the fake identifier, or Terminal's when none is set;
     * every other bundle keeps its own.
     */
    function BundleIdentifier(isMainBundle: bool, original: string): (id: string)
      reads this
      ensures !exchanged || !isMainBundle ==> id == original
      ensures exchanged && isMainBundle && fakeBundleIdentifier.Some? ==> id == fakeBundleIdentifier.value
      ensures exchanged && isMainBundle && fakeBundleIdentifier.None? ==> id == TerminalBundle
    {
      if exchanged && isMainBundle then fakeBundleIdentifier.GetOr(TerminalBundle) else original
    }
  }
}
