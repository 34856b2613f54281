/**
 * The builders of the earlier crate revision.  Attachments carry a list of
 * options in which each option kind is meant to occur at most once; a
 * setter removes every option of its kind (`Vec::retain`) and appends the
 * new one.  `attachment` and `action` push a fresh child builder and hand
 * back a reference to it, which the caller keeps configuring.
 */
module Builder {
  import opened Wrappers
  import UN = UnNotification

  /** `ThumbnailTimeKey` of this revision: one slot for video times and animation frames. */
  datatype ThumbnailTime = Time(duration: UN.Duration) | Start | End | FrameNumber(frame: nat)

  /** `AttachmentOptions` of this revision: one entry of an attachment's option list. */
  datatype AttachmentOption =
    | TypeHintKey(typeHint: string)
    | ThumbnailHiddenKey(hidden: bool)
    | ThumbnailTimeKey(time: ThumbnailTime)
    | ThumbnailClippingRectKey(rect: UN.ThumbnailClippingRect)

  datatype OptionKind = TypeHintKind | HiddenKind | TimeKind | ClippingRectKind

  function KindOf(o: AttachmentOption): OptionKind {
    match o
    case TypeHintKey(_) => TypeHintKind
    case ThumbnailHiddenKey(_) => HiddenKind
    case ThumbnailTimeKey(_) => TimeKind
    case ThumbnailClippingRectKey(_) => ClippingRectKind
  }

  /** The `matches!` predicate each setter hands to `overwrite_option`. */
  function OfKind(k: OptionKind): AttachmentOption -> bool {
    o => KindOf(o) == k
  }

  /** `Vec::retain(|o| !predicate(o))`: the options the predicate rejects, in their order. */
  function Retain(s: seq<AttachmentOption>, p: AttachmentOption -> bool): seq<AttachmentOption> {
    if |s| == 0 then []
    else if p(s[0]) then Retain(s[1..], p)
    else [s[0]] + Retain(s[1..], p)
  }

  /** The options a predicate selects, in their order. */
  function Select(s: seq<AttachmentOption>, q: AttachmentOption -> bool): seq<AttachmentOption> {
    if |s| == 0 then []
    else if q(s[0]) then [s[0]] + Select(s[1..], q)
    else Select(s[1..], q)
  }

  predicate AtMostOnePerKind(s: seq<AttachmentOption>) {
    forall i, j :: 0 <= i < j < |s| ==> KindOf(s[i]) != KindOf(s[j])
  }

  /** Nothing `Retain` keeps satisfies the predicate, and everything it keeps was there. */
  lemma {:induction false} RetainRemovesExactlyTheMatches(s: seq<AttachmentOption>, p: AttachmentOption -> bool)
    ensures forall x :: x in Retain(s, p) <==> x in s && !p(x)
    ensures |Retain(s, p)| <= |s|
  {
    if |s| > 0 {
      RetainRemovesExactlyTheMatches(s[1..], p);
      assert forall x :: x in s <==> x == s[0] || x in s[1..];
    }
  }

  /** Options the predicate does not touch keep their relative order. */
  lemma {:induction false} RetainKeepsOtherOptionsInOrder(s: seq<AttachmentOption>, p: AttachmentOption -> bool,
                                                          q: AttachmentOption -> bool)
    requires forall x :: q(x) ==> !p(x)
    ensures Select(Retain(s, p), q) == Select(s, q)
  {
    if |s| > 0 {
      RetainKeepsOtherOptionsInOrder(s[1..], p, q);
      if !p(s[0]) {
        assert ([s[0]] + Retain(s[1..], p))[1..] == Retain(s[1..], p);
      }
    }
  }

  lemma {:induction false} SelectAppend(s: seq<AttachmentOption>, t: seq<AttachmentOption>, q: AttachmentOption -> bool)
    ensures Select(s + t, q) == Select(s, q) + Select(t, q)
  {
    if |s| == 0 {
      assert s + t == t;
    } else {
      assert (s + t)[1..] == s[1..] + t;
      SelectAppend(s[1..], t, q);
    }
  }

  lemma {:induction false} SelectNoneOfRetain(s: seq<AttachmentOption>, p: AttachmentOption -> bool)
    ensures Select(Retain(s, p), p) == []
  {
    if |s| > 0 {
      SelectNoneOfRetain(s[1..], p);
      if !p(s[0]) {
        assert ([s[0]] + Retain(s[1..], p))[1..] == Retain(s[1..], p);
      }
    }
  }

  /**
   * After `overwrite_option(p, added)` with `p(added)`: the new option is the
   * only one `p` selects and sits last, and every option `p` does not select
   * keeps its place relative to the others.
   */
  lemma OverwriteOptionSpec(s: seq<AttachmentOption>, p: AttachmentOption -> bool, added: AttachmentOption,
                            q: AttachmentOption -> bool)
    requires p(added)
    requires forall x :: q(x) ==> !p(x)
    ensures var r := Retain(s, p) + [added];
            Select(r, p) == [added] && r[|r| - 1] == added
            && Select(r, q) == Select(s, q)
  {
    var r := Retain(s, p) + [added];
    SelectAppend(Retain(s, p), [added], p);
    SelectNoneOfRetain(s, p);
    assert Select([added], p) == [added];
    SelectAppend(Retain(s, p), [added], q);
    assert Select([added], q) == [];
    RetainKeepsOtherOptionsInOrder(s, p, q);
  }

  /** Overwriting a kind keeps an option list free of duplicate kinds. */
  lemma {:induction false} OverwriteKeepsOnePerKind(s: seq<AttachmentOption>, added: AttachmentOption)
    requires AtMostOnePerKind(s)
    ensures AtMostOnePerKind(Retain(s, OfKind(KindOf(added))) + [added])
  {
    var p := OfKind(KindOf(added));
    var kept := Retain(s, p);
    RetainOnePerKind(s, p);
    RetainRemovesExactlyTheMatches(s, p);
    var r := kept + [added];
    forall i, j | 0 <= i < j < |r| ensures KindOf(r[i]) != KindOf(r[j]) {
      if j == |r| - 1 {
        assert r[i] == kept[i] && kept[i] in kept;
      } else {
        assert r[i] == kept[i] && r[j] == kept[j];
      }
    }
  }

  lemma {:induction false} RetainOnePerKind(s: seq<AttachmentOption>, p: AttachmentOption -> bool)
    requires AtMostOnePerKind(s)
    ensures AtMostOnePerKind(Retain(s, p))
  {
    if |s| > 0 {
      assert AtMostOnePerKind(s[1..]) by {
        forall i, j | 0 <= i < j < |s[1..]| ensures KindOf(s[1..][i]) != KindOf(s[1..][j]) {
          assert s[1..][i] == s[i + 1] && s[1..][j] == s[j + 1];
        }
      }
      RetainOnePerKind(s[1..], p);
      if !p(s[0]) {
        var rest := Retain(s[1..], p);
        RetainRemovesExactlyTheMatches(s[1..], p);
        var r := [s[0]] + rest;
        forall i, j | 0 <= i < j < |r| ensures KindOf(r[i]) != KindOf(r[j]) {
          if i == 0 {
            assert r[j] == rest[j - 1] && rest[j - 1] in rest;
            var k :| 0 <= k < |s[1..]| && s[1..][k] == r[j];
            assert s[k + 1] == r[j];
          } else {
            assert r[i] == rest[i - 1] && r[j] == rest[j - 1];
          }
        }
      }
    }
  }

  /** The video times and the animation frame share one slot: the last call wins. */
  lemma LastThumbnailTimeWins(s: seq<AttachmentOption>, first: ThumbnailTime, second: ThumbnailTime)
    requires AtMostOnePerKind(s)
    ensures var p := OfKind(TimeKind);
            var after := Retain(Retain(s, p) + [ThumbnailTimeKey(first)], p) + [ThumbnailTimeKey(second)];
            Select(after, p) == [ThumbnailTimeKey(second)]
  {
    var p := OfKind(TimeKind);
    var once := Retain(s, p) + [ThumbnailTimeKey(first)];
    OverwriteOptionSpec(once, p, ThumbnailTimeKey(second), x => false);
  }

  /** An attachment of this revision: the option list is passed on as built. */
  datatype Attachment = Attachment(identifier: string, url: UN.Url, options: seq<AttachmentOption>)

  class AttachmentBuilder {
    var identifier: Option<string>
    var url: UN.Url
    var options: seq<AttachmentOption>

    predicate Valid()
      reads this
    {
      AtMostOnePerKind(options)
    }

    /** What `build` yields when `freshId` is the UUID it would draw. */
    function Built(freshId: string): (a: Attachment)
      reads this
      ensures a.identifier == (if identifier.Some? then identifier.value else freshId)
      ensures a.url == url && a.options == options
    {
      Attachment(identifier.GetOr(freshId), url, options)
    }

    constructor (url: UN.Url)
      ensures Valid()
      ensures identifier.None? && this.url == url && options == []
    {
      identifier, this.url, options := None, url, [];
    }

    method Identifier(id: string)
      modifies this
      ensures identifier == Some(id) && url == old(url) && options == old(options)
    {
      identifier := Some(id);
    }

    /** `overwrite_option`: drop every option `p` selects, then append `added`. */
    method OverwriteOption(p: AttachmentOption -> bool, added: AttachmentOption)
      modifies this
      ensures options == Retain(old(options), p) + [added]
      ensures identifier == old(identifier) && url == old(url)
    {
      var kept: seq<AttachmentOption> := [];
      var i := 0;
      while i < |options|
        invariant 0 <= i <= |options|
        invariant kept + Retain(options[i..], p) == Retain(options, p)
      {
        assert options[i..][1..] == options[i + 1..];
        if !p(options[i]) {
          kept := kept + [options[i]];
        }
        i := i + 1;
      }
      options := kept + [added];
    }

    method TypeHint(hint: string)
      requires Valid()
      modifies this
      ensures Valid()
      ensures options == Retain(old(options), OfKind(TypeHintKind)) + [TypeHintKey(hint)]
      ensures identifier == old(identifier) && url == old(url)
    {
      OverwriteKeepsOnePerKind(options, TypeHintKey(hint));
      OverwriteOption(OfKind(TypeHintKind), TypeHintKey(hint));
    }

    method HideThumbnail(hidden: bool)
      requires Valid()
      modifies this
      ensures Valid()
      ensures options == Retain(old(options), OfKind(HiddenKind)) + [ThumbnailHiddenKey(hidden)]
      ensures identifier == old(identifier) && url == old(url)
    {
      OverwriteKeepsOnePerKind(options, ThumbnailHiddenKey(hidden));
      OverwriteOption(OfKind(HiddenKind), ThumbnailHiddenKey(hidden));
    }

    method VideoThumbnailAtTime(d: UN.Duration)
      requires Valid()
      modifies this
      ensures Valid()
      ensures options == Retain(old(options), OfKind(TimeKind)) + [ThumbnailTimeKey(Time(d))]
      ensures identifier == old(identifier) && url == old(url)
    {
      OverwriteKeepsOnePerKind(options, ThumbnailTimeKey(Time(d)));
      OverwriteOption(OfKind(TimeKind), ThumbnailTimeKey(Time(d)));
    }

    method VideoThumbnailAtStart()
      requires Valid()
      modifies this
      ensures Valid()
      ensures options == Retain(old(options), OfKind(TimeKind)) + [ThumbnailTimeKey(Start)]
      ensures identifier == old(identifier) && url == old(url)
    {
      OverwriteKeepsOnePerKind(options, ThumbnailTimeKey(Start));
      OverwriteOption(OfKind(TimeKind), ThumbnailTimeKey(Start));
    }

    method VideoThumbnailAtEnd()
      requires Valid()
      modifies this
      ensures Valid()
      ensures options == Retain(old(options), OfKind(TimeKind)) + [ThumbnailTimeKey(End)]
      ensures identifier == old(identifier) && url == old(url)
    {
      OverwriteKeepsOnePerKind(options, ThumbnailTimeKey(End));
      OverwriteOption(OfKind(TimeKind), ThumbnailTimeKey(End));
    }

    method AnimationThumbnailFrame(frame: nat)
      requires Valid()
      modifies this
      ensures Valid()
      ensures options == Retain(old(options), OfKind(TimeKind)) + [ThumbnailTimeKey(FrameNumber(frame))]
      ensures identifier == old(identifier) && url == old(url)
    {
      OverwriteKeepsOnePerKind(options, ThumbnailTimeKey(FrameNumber(frame)));
      OverwriteOption(OfKind(TimeKind), ThumbnailTimeKey(FrameNumber(frame)));
    }

    method CropThumbnail(origin: (UN.F32, UN.F32), size: (UN.F32, UN.F32))
      requires Valid()
      modifies this
      ensures Valid()
      ensures options == Retain(old(options), OfKind(ClippingRectKind))
                         + [ThumbnailClippingRectKey(UN.ThumbnailClippingRect(origin, size))]
      ensures identifier == old(identifier) && url == old(url)
    {
      var rect := ThumbnailClippingRectKey(UN.ThumbnailClippingRect(origin, size));
      OverwriteKeepsOnePerKind(options, rect);
      OverwriteOption(OfKind(ClippingRectKind), rect);
    }

    method Build(freshId: string) returns (a: Attachment)
      ensures a == Built(freshId)
    {
      var id := if identifier.Some? then identifier.value else freshId;
      a := Attachment(id, url, options);
    }
  }

  class ActionBuilder {
    var identifier: Option<string>
    var title: string
    var icon: Option<UN.ActionIcon>
    var options: bv8

    /** What `build` yields when `freshId` is the UUID it would draw. */
    function Built(freshId: string): (a: UN.Action)
      reads this
      ensures a.identifier == (if identifier.Some? then identifier.value else freshId)
      ensures a.title == title && a.icon == icon && a.options == options
    {
      UN.Action(identifier.GetOr(freshId), title, icon, options)
    }

    constructor NewWithTitle(title: string)
      ensures identifier.None? && this.title == title && icon.None? && options == UN.ActionNone
    {
      identifier, this.title, icon, options := None, title, None, UN.ActionNone;
    }

    method Identifier(id: string)
      modifies this
      ensures identifier == Some(id) && title == old(title) && icon == old(icon) && options == old(options)
    {
      identifier := Some(id);
    }

    method BundleImage(name: string)
      modifies this
      ensures icon == Some(UN.TemplateImageName(name))
      ensures identifier == old(identifier) && title == old(title) && options == old(options)
    {
      icon := Some(UN.TemplateImageName(name));
    }

    method SystemImage(name: string)
      modifies this
      ensures icon == Some(UN.SystemImageName(name))
      ensures identifier == old(identifier) && title == old(title) && options == old(options)
    {
      icon := Some(UN.SystemImageName(name));
    }

    method RequireAuthentication()
      modifies this
      ensures options == old(options) | UN.ActionAuthenticationRequired
      ensures identifier == old(identifier) && title == old(title) && icon == old(icon)
    {
      options := options | UN.ActionAuthenticationRequired;
    }

    method Destructive()
      modifies this
      ensures options == old(options) | UN.ActionDestructive
      ensures identifier == old(identifier) && title == old(title) && icon == old(icon)
    {
      options := options | UN.ActionDestructive;
    }

    method Foreground()
      modifies this
      ensures options == old(options) | UN.ActionForeground
      ensures identifier == old(identifier) && title == old(title) && icon == old(icon)
    {
      options := options | UN.ActionForeground;
    }

    method Build(freshId: string) returns (a: UN.Action)
      ensures a == Built(freshId)
    {
      var id := if identifier.Some? then identifier.value else freshId;
      a := UN.Action(id, title, icon, options);
    }
  }

  class CategoryBuilder {
    var identifier: Option<string>
    var actions: seq<ActionBuilder>
    var intentIdentifiers: seq<string>
    var options: bv8
    var hiddenPreviewBodyPlaceholder: Option<string>
    var categorySummaryFormat: Option<string>

    constructor ()
      ensures identifier.None? && actions == [] && intentIdentifiers == [] && options == UN.CategoryNone
      ensures hiddenPreviewBodyPlaceholder.None? && categorySummaryFormat.None?
    {
      identifier, actions, intentIdentifiers, options := None, [], [], UN.CategoryNone;
      hiddenPreviewBodyPlaceholder, categorySummaryFormat := None, None;
    }

    method Identifier(id: string)
      modifies this
      ensures identifier == Some(id)
      ensures actions == old(actions) && intentIdentifiers == old(intentIdentifiers) && options == old(options)
      ensures hiddenPreviewBodyPlaceholder == old(hiddenPreviewBodyPlaceholder)
      ensures categorySummaryFormat == old(categorySummaryFormat)
    {
      identifier := Some(id);
    }

    method IntentIdentifier(id: string)
      modifies this
      ensures intentIdentifiers == old(intentIdentifiers) + [id]
      ensures identifier == old(identifier) && actions == old(actions) && options == old(options)
      ensures hiddenPreviewBodyPlaceholder == old(hiddenPreviewBodyPlaceholder)
      ensures categorySummaryFormat == old(categorySummaryFormat)
    {
      intentIdentifiers := intentIdentifiers + [id];
    }

    method HiddenPreviewBodyPlaceholder(placeholder: string)
      modifies this
      ensures hiddenPreviewBodyPlaceholder == Some(placeholder)
      ensures identifier == old(identifier) && actions == old(actions) && options == old(options)
      ensures intentIdentifiers == old(intentIdentifiers) && categorySummaryFormat == old(categorySummaryFormat)
    {
      hiddenPreviewBodyPlaceholder := Some(placeholder);
    }

    method CategorySummaryFormat(format: string)
      modifies this
      ensures categorySummaryFormat == Some(format)
      ensures identifier == old(identifier) && actions == old(actions) && options == old(options)
      ensures intentIdentifiers == old(intentIdentifiers)
      ensures hiddenPreviewBodyPlaceholder == old(hiddenPreviewBodyPlaceholder)
    {
      categorySummaryFormat := Some(format);
    }

    /** The flag setters differ only in the flag they OR in. */
    method SetFlag(flag: bv8)
      modifies this
      ensures options == old(options) | flag
      ensures identifier == old(identifier) && actions == old(actions) && intentIdentifiers == old(intentIdentifiers)
      ensures hiddenPreviewBodyPlaceholder == old(hiddenPreviewBodyPlaceholder)
      ensures categorySummaryFormat == old(categorySummaryFormat)
    {
      options := options | flag;
    }

    method HasCustomDismissAction()
      modifies this
      ensures options == old(options) | UN.CategoryCustomDismissAction
      ensures identifier == old(identifier) && actions == old(actions) && intentIdentifiers == old(intentIdentifiers)
      ensures hiddenPreviewBodyPlaceholder == old(hiddenPreviewBodyPlaceholder)
      ensures categorySummaryFormat == old(categorySummaryFormat)
    {
      SetFlag(UN.CategoryCustomDismissAction);
    }

    method DisplayInCarPlay()
      modifies this
      ensures options == old(options) | UN.CategoryAllowInCarPlay
      ensures identifier == old(identifier) && actions == old(actions) && intentIdentifiers == old(intentIdentifiers)
      ensures hiddenPreviewBodyPlaceholder == old(hiddenPreviewBodyPlaceholder)
      ensures categorySummaryFormat == old(categorySummaryFormat)
    {
      SetFlag(UN.CategoryAllowInCarPlay);
    }

    method ShowTitleWhenHidden()
      modifies this
      ensures options == old(options) | UN.CategoryHiddenPreviewShowTitle
      ensures identifier == old(identifier) && actions == old(actions) && intentIdentifiers == old(intentIdentifiers)
      ensures hiddenPreviewBodyPlaceholder == old(hiddenPreviewBodyPlaceholder)
      ensures categorySummaryFormat == old(categorySummaryFormat)
    {
      SetFlag(UN.CategoryHiddenPreviewShowTitle);
    }

    method ShowSubtitleWhenHidden()
      modifies this
      ensures options == old(options) | UN.CategoryHiddenPreviewShowSubtitle
      ensures identifier == old(identifier) && actions == old(actions) && intentIdentifiers == old(intentIdentifiers)
      ensures hiddenPreviewBodyPlaceholder == old(hiddenPreviewBodyPlaceholder)
      ensures categorySummaryFormat == old(categorySummaryFormat)
    {
      SetFlag(UN.CategoryHiddenPreviewShowSubtitle);
    }

    method AllowAnnouncements()
      modifies this
      ensures options == old(options) | UN.CategoryAllowAnnouncement
      ensures identifier == old(identifier) && actions == old(actions) && intentIdentifiers == old(intentIdentifiers)
      ensures hiddenPreviewBodyPlaceholder == old(hiddenPreviewBodyPlaceholder)
      ensures categorySummaryFormat == old(categorySummaryFormat)
    {
      SetFlag(UN.CategoryAllowAnnouncement);
    }

    /** `action`: push a fresh action builder with the title and hand it back. */
    method Action(title: string) returns (ab: ActionBuilder)
      modifies this
      ensures fresh(ab)
      ensures actions == old(actions) + [ab] && ab == actions[|old(actions)|]
      ensures ab.identifier.None? && ab.title == title && ab.icon.None? && ab.options == UN.ActionNone
      ensures identifier == old(identifier) && intentIdentifiers == old(intentIdentifiers) && options == old(options)
      ensures hiddenPreviewBodyPlaceholder == old(hiddenPreviewBodyPlaceholder)
      ensures categorySummaryFormat == old(categorySummaryFormat)
    {
      ab := new ActionBuilder.NewWithTitle(title);
      actions := actions + [ab];
    }

    /** `build`: each action builder is built in list order, each drawing its own UUID. */
    method Build(freshId: string, actionIds: seq<string>) returns (c: UN.Category)
      requires |actionIds| == |actions|
      ensures c.identifier == (if identifier.Some? then identifier.value else freshId)
      ensures |c.actions| == |actions|
      ensures forall i :: 0 <= i < |actions| ==> c.actions[i] == actions[i].Built(actionIds[i])
      ensures c.intentIdentifiers == intentIdentifiers && c.options == options
      ensures c.hiddenPreviewBodyPlaceholder == hiddenPreviewBodyPlaceholder
      ensures c.categorySummaryFormat == categorySummaryFormat
    {
      var id := if identifier.Some? then identifier.value else freshId;
      var built: seq<UN.Action> := [];
      for i := 0 to |actions|
        invariant |built| == i
        invariant forall j :: 0 <= j < i ==> built[j] == actions[j].Built(actionIds[j])
      {
        var a := actions[i].Build(actionIds[i]);
        built := built + [a];
      }
      c := UN.Category(id, built, intentIdentifiers, options, hiddenPreviewBodyPlaceholder, categorySummaryFormat);
    }
  }

  /** A notification of this revision: its attachments carry option lists. */
  datatype Notification = Notification(
    identifier: string,
    trigger: Option<UN.Trigger>,
    title: Option<string>,
    subtitle: Option<string>,
    body: string,
    attachments: seq<Attachment>,
    userInfo: map<string, string>,
    threadIdentifier: Option<string>,
    categoryIdentifier: Option<string>,
    summaryArgument: Option<string>,
    summaryArgumentCount: Option<nat>,
    launchImageName: Option<string>,
    badge: Option<nat>,
    targetContentIdentifier: Option<string>,
    sound: Option<UN.Sound>,
    interruptionLevel: Option<UN.InterruptionLevel>,
    relevanceScore: Option<UN.F32>,
    filterCriteria: Option<string>)

  /** A snapshot of a `NotificationBuilder`'s fields; attachments are the child builders. */
  datatype NotificationDraft = NotificationDraft(
    identifier: Option<string>,
    trigger: Option<UN.Trigger>,
    title: Option<string>,
    subtitle: Option<string>,
    body: string,
    attachments: seq<AttachmentBuilder>,
    userData: map<string, string>,
    threadIdentifier: Option<string>,
    categoryIdentifier: Option<string>,
    summaryArgument: Option<string>,
    summaryArgumentCount: Option<nat>,
    launchImageName: Option<string>,
    badge: Option<nat>,
    targetContentIdentifier: Option<string>,
    sound: Option<UN.Sound>,
    interruptionLevel: Option<UN.InterruptionLevel>,
    relevanceScore: Option<UN.F32>,
    filterCriteria: Option<string>)

  class NotificationBuilder {
    var identifier: Option<string>
    var trigger: Option<UN.Trigger>
    var title: Option<string>
    var subtitle: Option<string>
    var body: string
    var attachments: seq<AttachmentBuilder>
    var userData: map<string, string>
    var threadIdentifier: Option<string>
    var categoryIdentifier: Option<string>
    var summaryArgument: Option<string>
    var summaryArgumentCount: Option<nat>
    var launchImageName: Option<string>
    var badge: Option<nat>
    var targetContentIdentifier: Option<string>
    var sound: Option<UN.Sound>
    var interruptionLevel: Option<UN.InterruptionLevel>
    var relevanceScore: Option<UN.F32>
    var filterCriteria: Option<string>

    function Draft(): NotificationDraft
      reads this
    {
      NotificationDraft(identifier, trigger, title, subtitle, body, attachments, userData,
                        threadIdentifier, categoryIdentifier, summaryArgument, summaryArgumentCount,
                        launchImageName, badge, targetContentIdentifier, sound, interruptionLevel,
                        relevanceScore, filterCriteria)
    }

    constructor NewWithBody(body: string)
      ensures Draft() == NotificationDraft(None, None, None, None, body, [], map[], None, None, None, None,
                                           None, None, None, None, None, None, None)
    {
      identifier, trigger, title, subtitle := None, None, None, None;
      this.body := body;
      attachments, userData := [], map[];
      threadIdentifier, categoryIdentifier, summaryArgument, summaryArgumentCount := None, None, None, None;
      launchImageName, badge, targetContentIdentifier, sound := None, None, None, None;
      interruptionLevel, relevanceScore, filterCriteria := None, None, None;
    }

    method Title(t: string)
      modifies this
      ensures Draft() == old(Draft()).(title := Some(t))
    {
      title := Some(t);
    }

    method Subtitle(s: string)
      modifies this
      ensures Draft() == old(Draft()).(subtitle := Some(s))
    {
      subtitle := Some(s);
    }

    method Body(b: string)
      modifies this
      ensures Draft() == old(Draft()).(body := b)
    {
      body := b;
    }

    method UserData(key: string, value: string)
      modifies this
      ensures Draft() == old(Draft()).(userData := old(userData)[key := value])
    {
      userData := userData[key := value];
    }

    method Identifier(id: string)
      modifies this
      ensures Draft() == old(Draft()).(identifier := Some(id))
    {
      identifier := Some(id);
    }

    /** `attachment`: push a fresh attachment builder for the URL and hand back the one at the old length. */
    method Attachment(url: UN.Url) returns (ab: AttachmentBuilder)
      modifies this
      ensures fresh(ab) && ab.Valid()
      ensures ab.identifier.None? && ab.url == url && ab.options == []
      ensures Draft() == old(Draft()).(attachments := old(attachments) + [ab])
      ensures ab == attachments[|old(attachments)|]
    {
      ab := new AttachmentBuilder(url);
      attachments := attachments + [ab];
    }

    method Category(c: UN.Category)
      modifies this
      ensures Draft() == old(Draft()).(categoryIdentifier := Some(c.identifier))
    {
      categoryIdentifier := Some(c.identifier);
    }

    method CategoryId(id: string)
      modifies this
      ensures Draft() == old(Draft()).(categoryIdentifier := Some(id))
    {
      categoryIdentifier := Some(id);
    }

    method LaunchImage(name: string)
      modifies this
      ensures Draft() == old(Draft()).(launchImageName := Some(name))
    {
      launchImageName := Some(name);
    }

    method Thread(id: string)
      modifies this
      ensures Draft() == old(Draft()).(threadIdentifier := Some(id))
    {
      threadIdentifier := Some(id);
    }

    /** The eight sound setters store the corresponding `Sound` variant. */
    method SetSound(s: UN.Sound)
      modifies this
      ensures Draft() == old(Draft()).(sound := Some(s))
    {
      sound := Some(s);
    }

    method Interval(d: UN.Duration)
      modifies this
      ensures Draft() == old(Draft()).(trigger := Some(UN.Trigger(UN.TimeInterval(d), true)))
    {
      trigger := Some(UN.Trigger(UN.TimeInterval(d), true));
    }

    method Delay(d: UN.Duration)
      modifies this
      ensures Draft() == old(Draft()).(trigger := Some(UN.Trigger(UN.TimeInterval(d), false)))
    {
      trigger := Some(UN.Trigger(UN.TimeInterval(d), false));
    }

    method CronOneTime(s: UN.Schedule)
      modifies this
      ensures Draft() == old(Draft()).(trigger := Some(UN.Trigger(UN.Calendar(s), false)))
    {
      trigger := Some(UN.Trigger(UN.Calendar(s), false));
    }

    method Cron(s: UN.Schedule)
      modifies this
      ensures Draft() == old(Draft()).(trigger := Some(UN.Trigger(UN.Calendar(s), true)))
    {
      trigger := Some(UN.Trigger(UN.Calendar(s), true));
    }

    /** The four `as_*` setters store the corresponding interruption level. */
    method SetInterruptionLevel(level: UN.InterruptionLevel)
      modifies this
      ensures Draft() == old(Draft()).(interruptionLevel := Some(level))
    {
      interruptionLevel := Some(level);
    }

    method SummaryArgument(s: string)
      modifies this
      ensures Draft() == old(Draft()).(summaryArgument := Some(s))
    {
      summaryArgument := Some(s);
    }

    method SummaryArgumentCount(count: nat)
      modifies this
      ensures Draft() == old(Draft()).(summaryArgumentCount := Some(count))
    {
      summaryArgumentCount := Some(count);
    }

    method BadgeCount(count: nat)
      modifies this
      ensures Draft() == old(Draft()).(badge := Some(count))
    {
      badge := Some(count);
    }

    method TargetContentIdentifier(id: string)
      modifies this
      ensures Draft() == old(Draft()).(targetContentIdentifier := Some(id))
    {
      targetContentIdentifier := Some(id);
    }

    method RelevanceScore(score: UN.F32)
      modifies this
      ensures Draft() == old(Draft()).(relevanceScore := Some(score))
    {
      relevanceScore := Some(score);
    }

    method FilterCriteria(filter: string)
      modifies this
      ensures Draft() == old(Draft()).(filterCriteria := Some(filter))
    {
      filterCriteria := Some(filter);
    }

    /** `build`: the attachment builders are built in list order, each drawing its own UUID. */
    method Build(freshId: string, attachmentIds: seq<string>) returns (n: Notification)
      requires |attachmentIds| == |attachments|
      ensures n.identifier == (if identifier.Some? then identifier.value else freshId)
      ensures |n.attachments| == |attachments|
      ensures forall i :: 0 <= i < |attachments| ==> n.attachments[i] == attachments[i].Built(attachmentIds[i])
      ensures n.trigger == trigger && n.title == title && n.subtitle == subtitle && n.body == body
      ensures n.userInfo == userData && n.threadIdentifier == threadIdentifier
      ensures n.categoryIdentifier == categoryIdentifier && n.summaryArgument == summaryArgument
      ensures n.summaryArgumentCount == summaryArgumentCount && n.launchImageName == launchImageName
      ensures n.badge == badge && n.targetContentIdentifier == targetContentIdentifier && n.sound == sound
      ensures n.interruptionLevel == interruptionLevel && n.relevanceScore == relevanceScore
      ensures n.filterCriteria == filterCriteria
    {
      var id := if identifier.Some? then identifier.value else freshId;
      var built: seq<Attachment> := [];
      for i := 0 to |attachments|
        invariant |built| == i
        invariant forall j :: 0 <= j < i ==> built[j] == attachments[j].Built(attachmentIds[j])
      {
        var a := attachments[i].Build(attachmentIds[i]);
        built := built + [a];
      }
      n := Notification(id, trigger, title, subtitle, body, built, userData, threadIdentifier,
                        categoryIdentifier, summaryArgument, summaryArgumentCount, launchImageName,
                        badge, targetContentIdentifier, sound, interruptionLevel, relevanceScore,
                        filterCriteria);
    }
  }
}
