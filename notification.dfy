/**
 * The NSUserNotification front end of the crate's later revision: a
 * `Notification` filled in by setters, flattened into a string-to-string
 * dictionary with ten fixed keys, handed to the Objective-C side, and a
 * response dictionary decoded back into a `NotificationResponse`.
 *
 * The delivery date is a whole number of seconds since the Unix epoch; the
 * clock, the application check and the native send are parameters.
 */
module LegacyNotification {
  import opened Wrappers
  import Text

  /** What the main button of the notification offers. */
  datatype MainButton =
    | SingleAction(caption: string)
    | DropdownActions(caption: string, actions: seq<string>)
    | Response(placeholder: string)

  datatype Sound = Default | Custom(name: string)

  const DefaultSoundName := "NSUserNotificationDefaultSoundName"

  /** `impl<I: ToString> From<I> for Sound`: any text names a custom sound. */
  function SoundFrom(text: string): (s: Sound)
    ensures s != Default && s.name == text
  {
    Custom(text)
  }

  /** The fields of `Notification`, as one value. */
  datatype Fields = Fields(
    title: string,
    subtitle: Option<string>,
    message: string,
    mainButton: Option<MainButton>,
    closeButton: Option<string>,
    appIcon: Option<string>,
    contentImage: Option<string>,
    deliveryDate: Option<int>,
    sound: Option<Sound>,
    asynchronous: Option<bool>,
    waitForClick: bool)

  /** `Notification::default()` */
  const DefaultFields := Fields("", None, "", None, None, None, None, None, None, None, false)

  const MainButtonLabelKey := "mainButtonLabel"
  const ActionsKey := "actions"
  const CloseButtonLabelKey := "closeButtonLabel"
  const AppIconKey := "appIcon"
  const ContentImageKey := "contentImage"
  const ResponseKey := "response"
  const DeliveryDateKey := "deliveryDate"
  const AsynchronousKey := "asynchronous"
  const SoundKey := "sound"
  const ClickKey := "click"

  /** The keys of `to_dictionary`, in their order. */
  const Keys: seq<string> := [MainButtonLabelKey, ActionsKey, CloseButtonLabelKey, AppIconKey, ContentImageKey,
                              ResponseKey, DeliveryDateKey, AsynchronousKey, SoundKey, ClickKey]

  /** The caption, the dropdown entries and whether a reply field is wanted. */
  function ButtonParts(b: Option<MainButton>): (string, seq<string>, bool) {
    match b
    case Some(SingleAction(caption)) => (caption, [], false)
    case Some(DropdownActions(caption, actions)) => (caption, actions, false)
    case Some(Response(placeholder)) => (placeholder, [], true)
    case None => ("", [], false)
  }

  function SoundValue(s: Option<Sound>): string {
    match s
    case Some(Custom(name)) => name
    case Some(Default) => DefaultSoundName
    case None => ""
  }

  function DateValue(date: Option<int>): string {
    match date
    case Some(seconds) => Text.IntToDecimal(seconds)
    case None => ""
  }

  /** The ten values of `to_dictionary`, aligned with `Keys`. */
  function Values(f: Fields): (vals: seq<string>)
    ensures |vals| == |Keys|
  {
    var button := ButtonParts(f.mainButton);
    [button.0,
     Text.Join(button.1, ','),
     f.closeButton.GetOr(""),
     f.appIcon.GetOr(""),
     f.contentImage.GetOr(""),
     if button.2 then "yes" else "",
     DateValue(f.deliveryDate),
     if f.asynchronous == Some(true) then "yes" else "no",
     SoundValue(f.sound),
     if f.waitForClick then "yes" else "no"]
  }

  /** `Notification::to_dictionary` */
  function ToDictionary(f: Fields): (d: map<string, string>)
    ensures d.Keys == set k | k in Keys
    ensures forall i :: 0 <= i < |Keys| ==> d[Keys[i]] == Values(f)[i]
  {
    assert Text.Distinct(Keys);
    Text.FromKeysAndObjects(Keys, Values(f))
  }

  /** Every notification yields the same ten keys. */
  lemma ToDictionaryHasTenKeys(f: Fields, g: Fields)
    ensures ToDictionary(f).Keys == ToDictionary(g).Keys
    ensures |ToDictionary(f).Keys| == 10
  {
    assert Text.Distinct(Keys);
    Text.DistinctKeysCount(Keys);
  }


  /** The main button fills the caption, the actions and the response flag. */
  lemma MainButtonEncoding(f: Fields)
    ensures var d := ToDictionary(f);
            match f.mainButton
            case Some(SingleAction(caption)) =>
              d[MainButtonLabelKey] == caption && d[ActionsKey] == "" && d[ResponseKey] == ""
            case Some(DropdownActions(caption, actions)) =>
              d[MainButtonLabelKey] == caption && d[ActionsKey] == Text.Join(actions, ',') && d[ResponseKey] == ""
            case Some(Response(placeholder)) =>
              d[MainButtonLabelKey] == placeholder && d[ActionsKey] == "" && d[ResponseKey] == "yes"
            case None =>
              d[MainButtonLabelKey] == "" && d[ActionsKey] == "" && d[ResponseKey] == ""
  {
    var d := ToDictionary(f);
    assert Keys[0] == MainButtonLabelKey && Keys[1] == ActionsKey && Keys[5] == ResponseKey;
  }

  /** The reply flag is "yes" exactly for a reply button, else "". */
  lemma ResponseFlag(f: Fields)
    ensures var v := ToDictionary(f)[ResponseKey];
            (v == "yes" <==> f.mainButton.Some? && f.mainButton.value.Response?) && (v == "" || v == "yes")
  {
    assert Keys[5] == ResponseKey;
    var isResponse := ButtonParts(f.mainButton).2;
    assert isResponse <==> f.mainButton.Some? && f.mainButton.value.Response?;
    assert ToDictionary(f)[ResponseKey] == if isResponse then "yes" else "";
    assert |"yes"| != |""|;
  }

  /** `asynchronous` is "yes" only when explicitly set to true; unset and false both give "no". */
  lemma AsynchronousFlag(f: Fields)
    ensures var v := ToDictionary(f)[AsynchronousKey];
            (v == "yes" <==> f.asynchronous == Some(true)) && (v == "no" <==> f.asynchronous != Some(true))
  {
    assert Keys[7] == AsynchronousKey;
    assert |"yes"| != |"no"|;
  }

  lemma ClickFlag(f: Fields)
    ensures var v := ToDictionary(f)[ClickKey];
            (v == "yes" <==> f.waitForClick) && (v == "no" <==> !f.waitForClick)
  {
    assert Keys[9] == ClickKey;
    assert |"yes"| != |"no"|;
  }

  /** The optional text entries fall back to "". */
  lemma OptionalTextEncoding(f: Fields)
    ensures var d := ToDictionary(f);
            d[CloseButtonLabelKey] == f.closeButton.GetOr("")
            && d[AppIconKey] == f.appIcon.GetOr("")
            && d[ContentImageKey] == f.contentImage.GetOr("")
  {
    assert Keys[2] == CloseButtonLabelKey && Keys[3] == AppIconKey && Keys[4] == ContentImageKey;
  }

  /** The sound entry: the custom name, the system default's name, or "" for silence. */
  lemma SoundEncoding(f: Fields)
    ensures var v := ToDictionary(f)[SoundKey];
            (f.sound.None? ==> v == "")
            && (f.sound == Some(Default) ==> v == DefaultSoundName)
            && (f.sound.Some? && f.sound.value.Custom? ==> v == f.sound.value.name)
  {
    assert Keys[8] == SoundKey;
  }

  /** A sound built from text is sent under that very text. */
  lemma SoundFromEncodesItsText(f: Fields, text: string)
    ensures ToDictionary(f.(sound := Some(SoundFrom(text))))[SoundKey] == text
  {
    SoundEncoding(f.(sound := Some(SoundFrom(text))));
  }

  /**
   * The sound entry cannot tell a custom sound named like the default from
   * the default, nor a custom sound with an empty name from silence.
   */
  lemma SoundEncodingCollisions(f: Fields)
    ensures ToDictionary(f.(sound := Some(Custom(DefaultSoundName))))[SoundKey]
            == ToDictionary(f.(sound := Some(Default)))[SoundKey]
    ensures ToDictionary(f.(sound := Some(Custom(""))))[SoundKey] == ToDictionary(f.(sound := None))[SoundKey]
  {
    SoundEncoding(f.(sound := Some(Custom(DefaultSoundName))));
    SoundEncoding(f.(sound := Some(Default)));
    SoundEncoding(f.(sound := Some(Custom(""))));
    SoundEncoding(f.(sound := None));
  }

  /** Dropdown entries survive the trip through one comma-joined string when none contains a comma. */
  lemma DropdownActionsRoundTrip(f: Fields, caption: string, actions: seq<string>)
    requires f.mainButton == Some(DropdownActions(caption, actions))
    requires |actions| > 0 && forall i :: 0 <= i < |actions| ==> ',' !in actions[i]
    ensures Text.Split(ToDictionary(f)[ActionsKey], ',') == actions
  {
    MainButtonEncoding(f);
    Text.SplitJoin(actions, ',');
  }

  /** The delivery date is "" when absent, otherwise its decimal rendering; distinct dates stay distinct. */
  lemma DeliveryDateEncoding(f: Fields, g: Fields)
    ensures var v := ToDictionary(f)[DeliveryDateKey];
            (f.deliveryDate.None? ==> v == "")
            && (f.deliveryDate.Some? ==> v == Text.IntToDecimal(f.deliveryDate.value) && v != "")
    ensures f.deliveryDate.Some? && g.deliveryDate.Some?
            && ToDictionary(f)[DeliveryDateKey] == ToDictionary(g)[DeliveryDateKey]
            ==> f.deliveryDate == g.deliveryDate
  {
    assert Keys[6] == DeliveryDateKey;
    if f.deliveryDate.Some? && g.deliveryDate.Some?
       && ToDictionary(f)[DeliveryDateKey] == ToDictionary(g)[DeliveryDateKey] {
      Text.IntToDecimalInjective(f.deliveryDate.value, g.deliveryDate.value);
    }
  }

  /** `NoInteraction` is the crate's `NotificationResponse::None`. */
  datatype NotificationResponse =
    | NoInteraction
    | ActionButton(name: string)
    | CloseButton(name: string)
    | Click
    | Reply(text: string)

  /** The `activationValue` entry, or "" when it is missing. */
  function ActivationValue(d: map<string, string>): string {
    if "activationValue" in d then d["activationValue"] else ""
  }

  /** `NotificationResponse::from_dictionary` */
  function FromDictionary(d: map<string, string>): (r: NotificationResponse)
    ensures r.ActionButton? <==> "activationType" in d && d["activationType"] == "actionClicked"
    ensures r.CloseButton? <==> "activationType" in d && d["activationType"] == "closeClicked"
    ensures r.Reply? <==> "activationType" in d && d["activationType"] == "replied"
    ensures r == Click <==> "activationType" in d && d["activationType"] == "contentsClicked"
    ensures (r.ActionButton? ==> r.name == ActivationValue(d)) && (r.CloseButton? ==> r.name == ActivationValue(d))
    ensures r.Reply? ==> r.text == ActivationValue(d)
  {
    if "activationType" !in d then NoInteraction
    else match d["activationType"]
      case "actionClicked" => ActionButton(ActivationValue(d))
      case "closeClicked" => CloseButton(ActivationValue(d))
      case "replied" => Reply(ActivationValue(d))
      case "contentsClicked" => Click
      case _ => NoInteraction
  }

  /** Any other activation type, and a missing one, decode to `NoInteraction`. */
  lemma UnknownActivationIsNone(d: map<string, string>)
    requires "activationType" !in d
             || d["activationType"] !in {"actionClicked", "closeClicked", "replied", "contentsClicked"}
    ensures FromDictionary(d) == NoInteraction
  {
  }

  datatype Error = ScheduleInThePast | UnableToDeliver | ApplicationError(description: string)

  class Notification {
    var title: string
    var subtitle: Option<string>
    var message: string
    var mainButton: Option<MainButton>
    var closeButton: Option<string>
    var appIcon: Option<string>
    var contentImage: Option<string>
    var deliveryDate: Option<int>
    var sound: Option<Sound>
    var asynchronous: Option<bool>
    var waitForClick: bool

    function Snapshot(): Fields
      reads this
    {
      Fields(title, subtitle, message, mainButton, closeButton, appIcon, contentImage, deliveryDate,
             sound, asynchronous, waitForClick)
    }

    constructor ()
      ensures Snapshot() == DefaultFields
    {
      title, subtitle, message := "", None, "";
      mainButton, closeButton, appIcon, contentImage := None, None, None, None;
      deliveryDate, sound, asynchronous, waitForClick := None, None, None, false;
    }

    method Title(t: string)
      modifies this
      ensures Snapshot() == old(Snapshot()).(title := t)
    {
      title := t;
    }

    method Subtitle(s: string)
      modifies this
      ensures Snapshot() == old(Snapshot()).(subtitle := Some(s))
    {
      subtitle := Some(s);
    }

    /** Unlike `Subtitle`, this can clear the subtitle again. */
    method MaybeSubtitle(s: Option<string>)
      modifies this
      ensures Snapshot() == old(Snapshot()).(subtitle := s)
    {
      subtitle := s;
    }

    method Message(m: string)
      modifies this
      ensures Snapshot() == old(Snapshot()).(message := m)
    {
      message := m;
    }

    method SetMainButton(b: MainButton)
      modifies this
      ensures Snapshot() == old(Snapshot()).(mainButton := Some(b))
    {
      mainButton := Some(b);
    }

    method SetCloseButton(caption: string)
      modifies this
      ensures Snapshot() == old(Snapshot()).(closeButton := Some(caption))
    {
      closeButton := Some(caption);
    }

    method AppIcon(path: string)
      modifies this
      ensures Snapshot() == old(Snapshot()).(appIcon := Some(path))
    {
      appIcon := Some(path);
    }

    method ContentImage(path: string)
      modifies this
      ensures Snapshot() == old(Snapshot()).(contentImage := Some(path))
    {
      contentImage := Some(path);
    }

    method DeliveryDate(seconds: int)
      modifies this
      ensures Snapshot() == old(Snapshot()).(deliveryDate := Some(seconds))
    {
      deliveryDate := Some(seconds);
    }

    method DefaultSound()
      modifies this
      ensures Snapshot() == old(Snapshot()).(sound := Some(Default))
    {
      sound := Some(Default);
    }

    method SetSound(s: Sound)
      modifies this
      ensures Snapshot() == old(Snapshot()).(sound := Some(s))
    {
      sound := Some(s);
    }

    /** Unlike `SetSound`, this can clear the sound again. */
    method MaybeSound(s: Option<Sound>)
      modifies this
      ensures Snapshot() == old(Snapshot()).(sound := s)
    {
      sound := s;
    }

    method Asynchronous(flag: bool)
      modifies this
      ensures Snapshot() == old(Snapshot()).(asynchronous := Some(flag))
    {
      asynchronous := Some(flag);
    }

    method WaitForClick(flag: bool)
      modifies this
      ensures Snapshot() == old(Snapshot()).(waitForClick := flag)
    {
      waitForClick := flag;
    }

    /**
     * `send`: a past delivery date is reported first, then a failed
     * application check, then a native response holding "error"; otherwise
     * the response dictionary is decoded.  `now` is the current Unix time in
     * seconds, `applicationCheck` the outcome of the application check and
     * `deliver` the native `sendNotification`.
     */
    method Send(now: int, applicationCheck: Result<Unit, Error>,
                deliver: (string, string, string, map<string, string>) -> map<string, string>)
      returns (r: Result<NotificationResponse, Error>)
      ensures deliveryDate.Some? && deliveryDate.value < now ==> r == Failure(ScheduleInThePast)
      ensures (deliveryDate.None? || deliveryDate.value >= now) && applicationCheck.Failure?
              ==> r == Failure(applicationCheck.error)
      ensures (deliveryDate.None? || deliveryDate.value >= now) && applicationCheck.Success?
              ==> var response := deliver(title, subtitle.GetOr(""), message, ToDictionary(Snapshot()));
                  (r == Failure(UnableToDeliver) <==> "error" in response)
                  && ("error" !in response ==> r == Success(FromDictionary(response)))
    {
      if deliveryDate.Some? && deliveryDate.value < now {
        return Failure(ScheduleInThePast);
      }
      var options := ToDictionary(Snapshot());
      if applicationCheck.Failure? {
        return Failure(applicationCheck.error);
      }
      var response := deliver(title, subtitle.GetOr(""), message, options);
      if "error" in response {
        return Failure(UnableToDeliver);
      }
      r := Success(FromDictionary(response));
    }
  }
}
