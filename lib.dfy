/**
 * The crate root of the earliest revision: free functions over a
 * process-wide `APPLICATION_SET` flag, a six-key options dictionary, and the
 * decoder for the delegate's response dictionary.
 *
 * The sound-file probe, the bundle lookup and the native calls are
 * parameters: `soundExists` answers whether a sound file of that name is
 * installed, `bundleLookup` is what the native lookup returned, and
 * `nativeSet`, `deliver` and `schedule` stand for the Objective-C functions.
 */
module LegacyLib {
  import opened Wrappers
  import Text

  datatype MainButton = SingleAction(caption: string) | DropdownActions(caption: string, actions: seq<string>)

  datatype NotificationOptions = NotificationOptions(
    mainButton: Option<MainButton>,
    closeButton: Option<string>,
    appIcon: Option<string>,
    contentImage: Option<string>,
    groupId: Option<string>)

  /** `NotificationOptions::default()` */
  const DefaultOptions := NotificationOptions(None, None, None, None, None)

  const MainButtonLabelKey := "mainButtonLabel"
  const ActionsKey := "actions"
  const CloseButtonLabelKey := "closeButtonLabel"
  const AppIconKey := "appIcon"
  const ContentImageKey := "contentImage"
  const GroupIdKey := "groupID"

  /** The keys of `to_dictionary`, in their order. */
  const Keys: seq<string> := [MainButtonLabelKey, ActionsKey, CloseButtonLabelKey, AppIconKey, ContentImageKey, GroupIdKey]

  function ButtonParts(b: Option<MainButton>): (string, seq<string>) {
    match b
    case Some(SingleAction(caption)) => (caption, [])
    case Some(DropdownActions(caption, actions)) => (caption, actions)
    case None => ("", [])
  }

  /** The six values of `to_dictionary`, aligned with `Keys`. */
  function Values(o: NotificationOptions): (vals: seq<string>)
    ensures |vals| == |Keys|
  {
    var button := ButtonParts(o.mainButton);
    [button.0, Text.Join(button.1, ','), o.closeButton.GetOr(""), o.appIcon.GetOr(""),
     o.contentImage.GetOr(""), o.groupId.GetOr("")]
  }

  /** `NotificationOptions::to_dictionary` */
  function ToDictionary(o: NotificationOptions): (d: map<string, string>)
    ensures d.Keys == set k | k in Keys
    ensures forall i :: 0 <= i < |Keys| ==> d[Keys[i]] == Values(o)[i]
  {
    assert Text.Distinct(Keys);
    Text.FromKeysAndObjects(Keys, Values(o))
  }

  /** Every options value yields the same six keys. */
  lemma ToDictionaryHasSixKeys(o: NotificationOptions, p: NotificationOptions)
    ensures ToDictionary(o).Keys == ToDictionary(p).Keys
    ensures |ToDictionary(o).Keys| == 6
  {
    assert Text.Distinct(Keys);
    Text.DistinctKeysCount(Keys);
  }

  /** The main button fills the caption and the comma-joined actions; without one both are "". */
  lemma MainButtonEncoding(o: NotificationOptions)
    ensures var d := ToDictionary(o);
            match o.mainButton
            case Some(SingleAction(caption)) => d[MainButtonLabelKey] == caption && d[ActionsKey] == ""
            case Some(DropdownActions(caption, actions)) =>
              d[MainButtonLabelKey] == caption && d[ActionsKey] == Text.Join(actions, ',')
            case None => d[MainButtonLabelKey] == "" && d[ActionsKey] == ""
  {
    assert Keys[0] == MainButtonLabelKey && Keys[1] == ActionsKey;
  }

  /** The optional text entries fall back to "". */
  lemma OptionalTextEncoding(o: NotificationOptions)
    ensures var d := ToDictionary(o);
            d[CloseButtonLabelKey] == o.closeButton.GetOr("") && d[AppIconKey] == o.appIcon.GetOr("")
            && d[ContentImageKey] == o.contentImage.GetOr("") && d[GroupIdKey] == o.groupId.GetOr("")
  {
    assert Keys[2] == CloseButtonLabelKey && Keys[3] == AppIconKey;
    assert Keys[4] == ContentImageKey && Keys[5] == GroupIdKey;
  }

  /** The default options map every one of the six keys to "". */
  lemma DefaultDictionaryIsBlank()
    ensures forall k :: k in ToDictionary(DefaultOptions) ==> ToDictionary(DefaultOptions)[k] == ""
  {
    var d := ToDictionary(DefaultOptions);
    MainButtonEncoding(DefaultOptions);
    OptionalTextEncoding(DefaultOptions);
    forall k | k in d ensures d[k] == "" {
      assert k in Keys;
    }
  }

  /** `NoInteraction` is this revision's `NotificationResponse::None`. */
  datatype NotificationResponse =
    | NoInteraction
    | ActionButton(name: string)
    | CloseButton(name: string)
    | Clicked
    | Replied(text: string)

  function ActivationValue(d: map<string, string>): string {
    if "activationValue" in d then d["activationValue"] else ""
  }

  /** `NotificationResponse::from_dictionary` */
  function FromDictionary(d: map<string, string>): (r: NotificationResponse)
    ensures r.ActionButton? <==> "activationType" in d && d["activationType"] == "actionClicked"
    ensures r.CloseButton? <==> "activationType" in d && d["activationType"] == "closeClicked"
    ensures r.Replied? <==> "activationType" in d && d["activationType"] == "replied"
    ensures r == Clicked <==> "activationType" in d && d["activationType"] == "contentsClicked"
    ensures (r.ActionButton? ==> r.name == ActivationValue(d)) && (r.CloseButton? ==> r.name == ActivationValue(d))
    ensures r.Replied? ==> r.text == ActivationValue(d)
  {
    if "activationType" !in d then NoInteraction
    else match d["activationType"]
      case "actionClicked" => ActionButton(ActivationValue(d))
      case "closeClicked" => CloseButton(ActivationValue(d))
      case "replied" => Replied(ActivationValue(d))
      case "contentsClicked" => Clicked
      case _ => NoInteraction
  }

  datatype Error =
    | AlreadySet(bundle: string)
    | CouldNotSet(bundle: string)
    | ScheduleInThePast
    | UnableToSchedule
    | UnableToDeliver
    /** an `unwrap` on this error panicked */
    | Panicked(cause: Error)

  const MuteSound := "_mute"
  const FallbackBundle := "com.apple.Finder"

  /** The sound actually sent: the requested one if its file exists, else "_mute". */
  function UseSound(sound: Option<string>, soundExists: string -> bool): (s: string)
    ensures sound.Some? && soundExists(sound.value) ==> s == sound.value
    ensures sound.None? || !soundExists(sound.value) ==> s == MuteSound
  {
    match sound
    case Some(name) => if soundExists(name) then name else MuteSound
    case None => MuteSound
  }

  /** `get_bundle_identifier_or_default`: the looked-up identifier, or Finder's when there is none. */
  function GetBundleIdentifierOrDefault(bundleLookup: Option<string>): (id: string)
    ensures bundleLookup.Some? ==> id == bundleLookup.value
    ensures bundleLookup.None? ==> id == FallbackBundle
  {
    bundleLookup.GetOr(FallbackBundle)
  }

  /**
   * `schedule_notification`: a date before `now` is refused before anything
   * else; otherwise the outcome is the native scheduler's verdict.  This
   * function does not consult the application flag.
   */
  function ScheduleNotification(title: string, subtitle: Option<string>, message: string, sound: Option<string>,
                                deliveryDate: int, now: int, soundExists: string -> bool,
                                schedule: (string, string, string, string, int) -> bool): (r: Result<Unit, Error>)
    ensures deliveryDate < now ==> r == Failure(ScheduleInThePast)
    ensures deliveryDate >= now ==>
              (r.Success? <==> schedule(title, subtitle.GetOr(""), message, UseSound(sound, soundExists), deliveryDate))
    ensures r.Failure? ==> r.error == ScheduleInThePast || r.error == UnableToSchedule
  {
    if deliveryDate < now then Failure(ScheduleInThePast)
    else if schedule(title, subtitle.GetOr(""), message, UseSound(sound, soundExists), deliveryDate) then Success(Unit)
    else Failure(UnableToSchedule)
  }

  /** The process-wide state: `static mut APPLICATION_SET`. */
  class Library {
    var applicationSet: bool

    constructor ()
      ensures !applicationSet
    {
      applicationSet := false;
    }

    /**
     * `set_application`: refused once the flag is set; otherwise the flag is
     * set before the native call, so it stays set even when that call fails.
     */
    method SetApplication(bundle: string, nativeSet: bool) returns (r: Result<Unit, Error>)
      modifies this
      ensures applicationSet
      ensures old(applicationSet) ==> r == Failure(AlreadySet(bundle))
      ensures !old(applicationSet) && nativeSet ==> r == Success(Unit)
      ensures !old(applicationSet) && !nativeSet ==> r == Failure(CouldNotSet(bundle))
    {
      if applicationSet {
        return Failure(AlreadySet(bundle));
      }
      applicationSet := true;
      if !nativeSet {
        return Failure(CouldNotSet(bundle));
      }
      r := Success(Unit);
    }

    /**
     * `send_notification`: picks the sound and the options, sets the
     * application to the looked-up default bundle on first use (an `unwrap`
     * that panics when the native call refuses), then delivers.
     */
    method SendNotification(title: string, subtitle: Option<string>, message: string, sound: Option<string>,
                            options: Option<NotificationOptions>, soundExists: string -> bool,
                            bundleLookup: Option<string>, nativeSet: bool,
                            deliver: (string, string, string, string, map<string, string>) -> map<string, string>)
      returns (r: Result<Unit, Error>)
      modifies this
      ensures applicationSet
      ensures !old(applicationSet) && !nativeSet
              ==> r == Failure(Panicked(CouldNotSet(GetBundleIdentifierOrDefault(bundleLookup))))
      ensures old(applicationSet) || nativeSet
              ==> var response := deliver(title, subtitle.GetOr(""), message, UseSound(sound, soundExists),
                                          ToDictionary(options.GetOr(DefaultOptions)));
                  ("error" in response ==> r == Failure(UnableToDeliver))
                  && ("error" !in response ==> r == Success(Unit))
    {
      var useSound := UseSound(sound, soundExists);
      var dictionary := ToDictionary(options.GetOr(DefaultOptions));
      if !applicationSet {
        var bundle := GetBundleIdentifierOrDefault(bundleLookup);
        var set_ := SetApplication(bundle, nativeSet);
        if set_.Failure? {
          return Failure(Panicked(set_.error));
        }
        applicationSet := true;
      }
      var response := deliver(title, subtitle.GetOr(""), message, useSound, dictionary);
      if "error" in response {
        return Failure(UnableToDeliver);
      }
      var decoded := FromDictionary(response);
      r := Success(Unit);
    }
  }

  /** A second `set_application` always fails, whatever the first one returned. */
  method SetApplicationTwice(bundle: string, firstNative: bool, secondNative: bool)
    returns (first: Result<Unit, Error>, second: Result<Unit, Error>)
    ensures second == Failure(AlreadySet(bundle))
    ensures first.Success? <==> firstNative
  {
    var library := new Library();
    first := library.SetApplication(bundle, firstNative);
    second := library.SetApplication(bundle, secondNative);
  }
}
