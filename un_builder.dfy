/**
 * The fluent builders of the UserNotifications binding.  Each builder is an
 * object whose setter methods overwrite one field (or push onto a list, or
 * OR a flag in); `build` copies the fields into a value, drawing a fresh
 * UUID (the `freshId` parameter) when no identifier was set.
 */
module UnBuilder {
  import opened Wrappers
  import opened AppleOs
  import UN = UnNotification

  /** A snapshot of a `NotificationBuilder`'s fields. */
  datatype NotificationDraft = NotificationDraft(
    identifier: Option<string>,
    trigger: Option<UN.Trigger>,
    title: Option<string>,
    subtitle: Option<string>,
    body: string,
    attachments: seq<UN.Attachment>,
    userData: map<string, string>,
    threadIdentifier: Option<string>,
    categoryIdentifier: Option<string>,
    summaryArgument: Option<string>,
    summaryArgumentCount: Option<nat>,
    launchImageName: Option<string>,
    badge: Option<nat>,
    targetContentIdentifier: Option<string>,
    sound: Option<UN.Sound>,
    interruptionLevel: Option<UN.InterruptionLevel>,
    relevanceScore: Option<UN.F32>,
    filterCriteria: Option<string>)

  /** `new_with_body`: the body, and every other field at its `Default`. */
  function NewDraft(body: string): NotificationDraft {
    NotificationDraft(None, None, None, None, body, [], map[], None, None, None, None,
                      None, None, None, None, None, None, None)
  }

  /** The notification `build` assembles from a draft. */
  function Assemble(d: NotificationDraft, freshId: string): (n: UN.Notification)
    ensures n.identifier == (if d.identifier.Some? then d.identifier.value else freshId)
    ensures n.trigger == d.trigger && n.title == d.title && n.subtitle == d.subtitle && n.body == d.body
    ensures n.attachments == d.attachments && n.userInfo == d.userData
    ensures n.threadIdentifier == d.threadIdentifier && n.categoryIdentifier == d.categoryIdentifier
    ensures n.summaryArgument == d.summaryArgument && n.summaryArgumentCount == d.summaryArgumentCount
    ensures n.launchImageName == d.launchImageName && n.badge == d.badge
    ensures n.targetContentIdentifier == d.targetContentIdentifier && n.sound == d.sound
    ensures n.interruptionLevel == d.interruptionLevel && n.relevanceScore == d.relevanceScore
    ensures n.filterCriteria == d.filterCriteria
  {
    UN.Notification(d.identifier.GetOr(freshId), d.trigger, d.title, d.subtitle, d.body, d.attachments,
                    d.userData, d.threadIdentifier, d.categoryIdentifier, d.summaryArgument,
                    d.summaryArgumentCount, d.launchImageName, d.badge, d.targetContentIdentifier,
                    d.sound, d.interruptionLevel, d.relevanceScore, d.filterCriteria)
  }

  /** Once an identifier is set, the random UUID no longer influences the built notification. */
  lemma AssembleIgnoresFreshIdOnceIdentified(d: NotificationDraft, freshId1: string, freshId2: string)
    requires d.identifier.Some?
    ensures Assemble(d, freshId1) == Assemble(d, freshId2)
  {
  }

  /** The only field that depends on the random UUID is the identifier. */
  lemma AssembleDependsOnFreshIdOnlyThroughIdentifier(d: NotificationDraft, freshId1: string, freshId2: string)
    requires d.identifier.None?
    ensures Assemble(d, freshId1).identifier == freshId1
    ensures Assemble(d, freshId1).(identifier := freshId2) == Assemble(d, freshId2)
  {
  }

  /**
   * A notification made with only `new_with_body` and `identifier` converts
   * to a request whose content carries the body and, off tvOS, an empty
   * attachment list and an empty user-info dictionary, and no trigger.
   */
  lemma PlainNotificationConverts(body: string, id: string, freshId: string, av: AppleVersion, target: Target,
                                  framework: UN.AttachmentRequest -> Option<string>)
    ensures var n := Assemble(NewDraft(body).(identifier := Some(id)), freshId);
            var r := UN.Convert(n, av, target, framework);
            r.Success? && r.value.identifier == id && r.value.trigger.None?
            && r.value.content.body == Some(body)
            && r.value.content.title.None? && r.value.content.sound.None? && r.value.content.badge.None?
            && (target != TvOSTarget ==> r.value.content.attachments == Some([])
                                         && r.value.content.userInfo == Some(map[]))
  {
    var n := Assemble(NewDraft(body).(identifier := Some(id)), freshId);
    assert UN.ConvertAttachments(n.attachments, av, framework) == Success([]);
  }

  /** A date and time already converted to the local time zone, to the second. */
  datatype LocalDateTime = LocalDateTime(year: nat, month: nat, day: nat, hour: nat, minute: nat, second: nat)

  /**
   * `datetime_to_schedule` after the conversion to local time: the cron
   * pattern `%S %M %H %-d %b * %Y`, one value per field and every day of week.
   */
  function DateTimeToSchedule(dt: LocalDateTime): (s: UN.Schedule)
    ensures s.daysOfWeek == UN.All
    ensures s.months == UN.Values([dt.month]) && s.daysOfMonth == UN.Values([dt.day])
  {
    UN.Schedule(UN.Values([dt.second]), UN.Values([dt.minute]), UN.Values([dt.hour]),
                UN.Values([dt.day]), UN.Values([dt.month]), UN.All, UN.Values([dt.year]))
  }

  /**
   * A date scheduled with `schedule` becomes date components holding every
   * field of the date; as written, the conversion puts the day of the month
   * in the month and leaves the day unset.
   */
  lemma ScheduledDateComponents(dt: LocalDateTime)
    ensures UN.IntendedComponents(DateTimeToSchedule(dt))
              == Success(UN.DateComponents(Some(dt.year), Some(dt.month), Some(dt.day),
                                           Some(dt.hour), Some(dt.minute), Some(dt.second), None))
    ensures UN.AsWrittenComponents(DateTimeToSchedule(dt))
              == Success(UN.DateComponents(Some(dt.year), Some(dt.day), None,
                                           Some(dt.hour), Some(dt.minute), Some(dt.second), None))
  {
  }

  /**
   * A scheduled date whose fields lie in the cron crate's ranges gives a
   * schedule the cron parser could have produced.
   */
  lemma DateScheduleWellFormed(dt: LocalDateTime)
    requires 1970 <= dt.year <= 2100 && 1 <= dt.month <= 12 && 1 <= dt.day <= 31
    requires dt.hour <= 23 && dt.minute <= 59 && dt.second <= 59
    ensures UN.WellFormedSchedule(DateTimeToSchedule(dt))
  {
  }

  const IntervalTooShort := "Duration should be grater than one minute"

  class NotificationBuilder {
    var identifier: Option<string>
    var trigger: Option<UN.Trigger>
    var title: Option<string>
    var subtitle: Option<string>
    var body: string
    var attachments: seq<UN.Attachment>
    var userData: map<string, string>
    var threadIdentifier: Option<string>
    var categoryIdentifier: Option<string>
    var summaryArgument: Option<string>
    var summaryArgumentCount: Option<nat>
    var launchImageName: Option<string>
    var badge: Option<nat>
    var targetContentIdentifier: Option<string>
    var sound: Option<UN.Sound>
    var interruptionLevel: Option<UN.InterruptionLevel>
    var relevanceScore: Option<UN.F32>
    var filterCriteria: Option<string>

    function Draft(): NotificationDraft
      reads this
    {
      NotificationDraft(identifier, trigger, title, subtitle, body, attachments, userData,
                        threadIdentifier, categoryIdentifier, summaryArgument, summaryArgumentCount,
                        launchImageName, badge, targetContentIdentifier, sound, interruptionLevel,
                        relevanceScore, filterCriteria)
    }

    constructor NewWithBody(body: string)
      ensures Draft() == NewDraft(body)
    {
      identifier, trigger, title, subtitle := None, None, None, None;
      this.body := body;
      attachments, userData := [], map[];
      threadIdentifier, categoryIdentifier, summaryArgument, summaryArgumentCount := None, None, None, None;
      launchImageName, badge, targetContentIdentifier, sound := None, None, None, None;
      interruptionLevel, relevanceScore, filterCriteria := None, None, None;
    }

    method Title(t: string)
      modifies this
      ensures Draft() == old(Draft()).(title := Some(t))
    {
      title := Some(t);
    }

    method Subtitle(s: string)
      modifies this
      ensures Draft() == old(Draft()).(subtitle := Some(s))
    {
      subtitle := Some(s);
    }

    method Body(b: string)
      modifies this
      ensures Draft() == old(Draft()).(body := b)
    {
      body := b;
    }

    /** `HashMap::insert`: a later value for the same key replaces the earlier one. */
    method UserData(key: string, value: string)
      modifies this
      ensures Draft() == old(Draft()).(userData := old(userData)[key := value])
    {
      userData := userData[key := value];
    }

    method Identifier(id: string)
      modifies this
      ensures Draft() == old(Draft()).(identifier := Some(id))
    {
      identifier := Some(id);
    }

    method Attachment(a: UN.Attachment)
      modifies this
      ensures Draft() == old(Draft()).(attachments := old(attachments) + [a])
    {
      attachments := attachments + [a];
    }

    /** `category`: records only the category's identifier. */
    method Category(c: UN.Category)
      modifies this
      ensures Draft() == old(Draft()).(categoryIdentifier := Some(c.identifier))
    {
      categoryIdentifier := Some(c.identifier);
    }

    method CategoryId(id: string)
      modifies this
      ensures Draft() == old(Draft()).(categoryIdentifier := Some(id))
    {
      categoryIdentifier := Some(id);
    }

    method LaunchImage(name: string)
      modifies this
      ensures Draft() == old(Draft()).(launchImageName := Some(name))
    {
      launchImageName := Some(name);
    }

    method Thread(id: string)
      modifies this
      ensures Draft() == old(Draft()).(threadIdentifier := Some(id))
    {
      threadIdentifier := Some(id);
    }

    method DefaultSound()
      modifies this
      ensures Draft() == old(Draft()).(sound := Some(UN.Default))
    {
      sound := Some(UN.Default);
    }

    method Sound(name: string)
      modifies this
      ensures Draft() == old(Draft()).(sound := Some(UN.Named(name)))
    {
      sound := Some(UN.Named(name));
    }

    method DefaultCriticalSound()
      modifies this
      ensures Draft() == old(Draft()).(sound := Some(UN.DefaultCriticalSound))
    {
      sound := Some(UN.DefaultCriticalSound);
    }

    method DefaultCriticalSoundWithVolume(volume: UN.F32)
      modifies this
      ensures Draft() == old(Draft()).(sound := Some(UN.DefaultCriticalSoundWithVolume(volume)))
    {
      sound := Some(UN.DefaultCriticalSoundWithVolume(volume));
    }

    method CriticalSound(name: string)
      modifies this
      ensures Draft() == old(Draft()).(sound := Some(UN.CriticalSoundNamed(name)))
    {
      sound := Some(UN.CriticalSoundNamed(name));
    }

    method CriticalSoundWithVolume(name: string, volume: UN.F32)
      modifies this
      ensures Draft() == old(Draft()).(sound := Some(UN.CriticalSoundNamedWithVolume(name, volume)))
    {
      sound := Some(UN.CriticalSoundNamedWithVolume(name, volume));
    }

    method DefaultRingtone()
      modifies this
      ensures Draft() == old(Draft()).(sound := Some(UN.DefaultRingtone))
    {
      sound := Some(UN.DefaultRingtone);
    }

    method Ringtone(name: string)
      modifies this
      ensures Draft() == old(Draft()).(sound := Some(UN.RingtoneSoundNamed(name)))
    {
      sound := Some(UN.RingtoneSoundNamed(name));
    }

    /**
     * `interval`: a repeating time-interval trigger; the assertion panics
     * (the `Failure`) unless the duration is strictly longer than 60 seconds,
     * and the builder is left as it was.
     */
    method Interval(d: UN.Duration) returns (r: Result<Unit, string>)
      modifies this
      ensures r.Success? <==> d.secs > 60
      ensures r.Success? ==> Draft() == old(Draft()).(trigger := Some(UN.Trigger(UN.TimeInterval(d), true)))
      ensures r.Failure? ==> r.error == IntervalTooShort && Draft() == old(Draft())
    {
      if d.secs <= 60 {
        return Failure(IntervalTooShort);
      }
      trigger := Some(UN.Trigger(UN.TimeInterval(d), true));
      r := Success(Unit);
    }

    method Delay(d: UN.Duration)
      modifies this
      ensures Draft() == old(Draft()).(trigger := Some(UN.Trigger(UN.TimeInterval(d), false)))
    {
      trigger := Some(UN.Trigger(UN.TimeInterval(d), false));
    }

    method CronOneTime(s: UN.Schedule)
      modifies this
      ensures Draft() == old(Draft()).(trigger := Some(UN.Trigger(UN.Calendar(s), false)))
    {
      trigger := Some(UN.Trigger(UN.Calendar(s), false));
    }

    method Cron(s: UN.Schedule)
      modifies this
      ensures Draft() == old(Draft()).(trigger := Some(UN.Trigger(UN.Calendar(s), true)))
    {
      trigger := Some(UN.Trigger(UN.Calendar(s), true));
    }

    /** `schedule`: a one-shot calendar trigger at the given local date and time. */
    method Schedule(dt: LocalDateTime)
      modifies this
      ensures Draft() == old(Draft()).(trigger := Some(UN.Trigger(UN.Calendar(DateTimeToSchedule(dt)), false)))
    {
      trigger := Some(UN.Trigger(UN.Calendar(DateTimeToSchedule(dt)), false));
    }

    method AsActive()
      modifies this
      ensures Draft() == old(Draft()).(interruptionLevel := Some(UN.Active))
    {
      interruptionLevel := Some(UN.Active);
    }

    method AsCritical()
      modifies this
      ensures Draft() == old(Draft()).(interruptionLevel := Some(UN.Critical))
    {
      interruptionLevel := Some(UN.Critical);
    }

    method AsPassive()
      modifies this
      ensures Draft() == old(Draft()).(interruptionLevel := Some(UN.Passive))
    {
      interruptionLevel := Some(UN.Passive);
    }

    method AsTimeSensitive()
      modifies this
      ensures Draft() == old(Draft()).(interruptionLevel := Some(UN.TimeSensitive))
    {
      interruptionLevel := Some(UN.TimeSensitive);
    }

    method SummaryArgument(s: string)
      modifies this
      ensures Draft() == old(Draft()).(summaryArgument := Some(s))
    {
      summaryArgument := Some(s);
    }

    method SummaryArgumentCount(count: nat)
      modifies this
      ensures Draft() == old(Draft()).(summaryArgumentCount := Some(count))
    {
      summaryArgumentCount := Some(count);
    }

    method BadgeCount(count: nat)
      modifies this
      ensures Draft() == old(Draft()).(badge := Some(count))
    {
      badge := Some(count);
    }

    method TargetContentIdentifier(id: string)
      modifies this
      ensures Draft() == old(Draft()).(targetContentIdentifier := Some(id))
    {
      targetContentIdentifier := Some(id);
    }

    method RelevanceScore(score: UN.F32)
      modifies this
      ensures Draft() == old(Draft()).(relevanceScore := Some(score))
    {
      relevanceScore := Some(score);
    }

    method FilterCriteria(filter: string)
      modifies this
      ensures Draft() == old(Draft()).(filterCriteria := Some(filter))
    {
      filterCriteria := Some(filter);
    }

    /** `build`: the set identifier or a fresh UUID; every other field copied. */
    method Build(freshId: string) returns (n: UN.Notification)
      ensures n == Assemble(Draft(), freshId)
    {
      var id := if identifier.Some? then identifier.value else freshId;
      n := UN.Notification(id, trigger, title, subtitle, body, attachments, userData, threadIdentifier,
                           categoryIdentifier, summaryArgument, summaryArgumentCount, launchImageName,
                           badge, targetContentIdentifier, sound, interruptionLevel, relevanceScore,
                           filterCriteria);
    }
  }

  /** `AttachmentBuilder<T>`: the options' variant is the type parameter `T` and never changes. */
  class AttachmentBuilder {
    var identifier: Option<string>
    var url: UN.Url
    var options: UN.AttachmentOptions

    constructor Video(url: UN.Url)
      ensures identifier.None? && this.url == url && options == UN.Video(None, None, None, None)
    {
      identifier, this.url, options := None, url, UN.Video(None, None, None, None);
    }

    constructor Audio(url: UN.Url)
      ensures identifier.None? && this.url == url && options == UN.Audio(None)
    {
      identifier, this.url, options := None, url, UN.Audio(None);
    }

    constructor Image(url: UN.Url)
      ensures identifier.None? && this.url == url && options == UN.Image(None, None, None)
    {
      identifier, this.url, options := None, url, UN.Image(None, None, None);
    }

    constructor AnimatedImage(url: UN.Url)
      ensures identifier.None? && this.url == url && options == UN.AnimatedImage(None, None, None, None)
    {
      identifier, this.url, options := None, url, UN.AnimatedImage(None, None, None, None);
    }

    method Identifier(id: string)
      modifies this
      ensures identifier == Some(id) && url == old(url) && options == old(options)
    {
      identifier := Some(id);
    }

    /** `format`, available when `T: UnifiedAttachmentOptions`, with the format family of `T`. */
    method Format(f: UN.Format)
      requires UN.FormatFits(options, f)
      modifies this
      ensures options == UN.SetFormat(old(options), f)
      ensures identifier == old(identifier) && url == old(url)
    {
      options := UN.SetFormat(options, f);
    }

    /** `crop_thumbnail`, available when `T: ThumbnailedAttachmentOptions`. */
    method CropThumbnail(origin: (UN.F32, UN.F32), size: (UN.F32, UN.F32))
      requires UN.Thumbnailed(options)
      modifies this
      ensures options == UN.CropThumbnail(old(options), UN.ThumbnailClippingRect(origin, size))
      ensures identifier == old(identifier) && url == old(url)
    {
      options := UN.CropThumbnail(options, UN.ThumbnailClippingRect(origin, size));
    }

    /** `hide_thumbnail`, available when `T: ThumbnailedAttachmentOptions`. */
    method HideThumbnail(hidden: bool)
      requires UN.Thumbnailed(options)
      modifies this
      ensures options == UN.HideThumbnail(old(options), hidden)
      ensures identifier == old(identifier) && url == old(url)
    {
      options := UN.HideThumbnail(options, hidden);
    }

    method ThumbnailFrame(frame: nat)
      requires options.AnimatedImage?
      modifies this
      ensures options == old(options).(thumbnailFrame := Some(frame))
      ensures identifier == old(identifier) && url == old(url)
    {
      options := options.(thumbnailFrame := Some(frame));
    }

    method ThumbnailFromStart()
      requires options.Video?
      modifies this
      ensures options == old(options).(thumbnailTime := Some(UN.Start))
      ensures identifier == old(identifier) && url == old(url)
    {
      options := options.(thumbnailTime := Some(UN.Start));
    }

    method ThumbnailFromEnd()
      requires options.Video?
      modifies this
      ensures options == old(options).(thumbnailTime := Some(UN.End))
      ensures identifier == old(identifier) && url == old(url)
    {
      options := options.(thumbnailTime := Some(UN.End));
    }

    method ThumbnailTime(d: UN.Duration)
      requires options.Video?
      modifies this
      ensures options == old(options).(thumbnailTime := Some(UN.Time(d)))
      ensures identifier == old(identifier) && url == old(url)
    {
      options := options.(thumbnailTime := Some(UN.Time(d)));
    }

    /** `build` with `generate_identifier`: the options are always present. */
    method Build(freshId: string) returns (a: UN.Attachment)
      ensures a.identifier == (if identifier.Some? then identifier.value else freshId)
      ensures a.url == url && a.options == Some(options)
    {
      a := UN.Attachment(identifier.GetOr(freshId), url, Some(options));
    }
  }

  /** A snapshot of a `CategoryBuilder`'s fields. */
  datatype CategoryDraft = CategoryDraft(
    identifier: Option<string>, actions: seq<UN.Action>, intentIdentifiers: seq<string>, options: bv8,
    hiddenPreviewBodyPlaceholder: Option<string>, categorySummaryFormat: Option<string>)

  /**
   * Setting a flag sets it, keeps every flag already set, setting it twice
   * changes nothing, and two setters give the same options in either order.
   */
  lemma OrFlagKeepsOthers(flags: bv8, flag: bv8, other: bv8)
    ensures UN.HasFlag(flags | flag, flag)
    ensures UN.HasFlag(flags, other) ==> UN.HasFlag(flags | flag, other)
    ensures (flags | flag) | flag == flags | flag
    ensures (flags | flag) | other == (flags | other) | flag
  {
  }

  /**
   * The `options` a category or action builder holds after its flag setters
   * are called with `flags`, in that order, on options `start`: each setter
   * ORs its flag in.
   */
  function ApplyFlags(start: bv8, flags: seq<bv8>): bv8 {
    if |flags| == 0 then start else ApplyFlags(start, flags[..|flags| - 1]) | flags[|flags| - 1]
  }

  /** A one-bit flag is in an OR exactly when it is in one of the operands. */
  lemma OneBitOfOr(x: bv8, y: bv8, f: bv8)
    requires UN.SingleBit(f)
    ensures UN.HasFlag(x | y, f) <==> UN.HasFlag(x, f) || UN.HasFlag(y, f)
  {
  }

  /** After the setters, a one-bit flag is set exactly when it was set before or some setter's flag has it. */
  lemma {:induction false} ApplyFlagsHas(start: bv8, flags: seq<bv8>, f: bv8)
    requires UN.SingleBit(f)
    ensures UN.HasFlag(ApplyFlags(start, flags), f) <==>
              UN.HasFlag(start, f) || exists y :: y in flags && UN.HasFlag(y, f)
  {
    if |flags| > 0 {
      var n := |flags| - 1;
      ApplyFlagsHas(start, flags[..n], f);
      OneBitOfOr(ApplyFlags(start, flags[..n]), flags[n], f);
      assert flags == flags[..n] + [flags[n]];
      assert forall y :: y in flags <==> y in flags[..n] || y == flags[n];
    }
  }

  /** Options that agree on every one-bit flag are equal. */
  lemma BitsDetermine(x: bv8, y: bv8)
    requires forall b :: UN.SingleBit(b) ==> (UN.HasFlag(x, b) <==> UN.HasFlag(y, b))
    ensures x == y
  {
    assert UN.SingleBit(1) && UN.SingleBit(2) && UN.SingleBit(4) && UN.SingleBit(8);
    assert UN.SingleBit(16) && UN.SingleBit(32) && UN.SingleBit(64) && UN.SingleBit(128);
  }

  /**
   * The flag setters commute and are idempotent: two call sequences naming
   * the same flags, in any order and any number of times, leave the same
   * options.
   */
  lemma SetterOrderIrrelevant(start: bv8, fs: seq<bv8>, gs: seq<bv8>)
    requires forall y :: y in fs <==> y in gs
    ensures ApplyFlags(start, fs) == ApplyFlags(start, gs)
  {
    forall b | UN.SingleBit(b)
      ensures UN.HasFlag(ApplyFlags(start, fs), b) <==> UN.HasFlag(ApplyFlags(start, gs), b)
    {
      ApplyFlagsHas(start, fs, b);
      ApplyFlagsHas(start, gs, b);
    }
    BitsDetermine(ApplyFlags(start, fs), ApplyFlags(start, gs));
  }

  /**
   * From a fresh builder, the category setters called with `fs` leave a named
   * category flag set exactly when one of the calls set it.
   */
  lemma CategorySettersRecordExactly(fs: seq<bv8>, i: nat)
    requires forall k :: 0 <= k < |fs| ==> fs[k] in UN.CategoryFlags()
    requires i < 5
    ensures UN.HasFlag(ApplyFlags(UN.CategoryNone, fs), UN.CategoryFlags()[i]) <==> UN.CategoryFlags()[i] in fs
  {
    UN.FlagsAreDistinctBits();
    NamedSettersRecordExactly(UN.CategoryFlags(), fs, i);
  }

  /**
   * From a fresh builder, the action setters called with `fs` leave a named
   * action flag set exactly when one of the calls set it.
   */
  lemma ActionSettersRecordExactly(fs: seq<bv8>, i: nat)
    requires forall k :: 0 <= k < |fs| ==> fs[k] in UN.ActionFlags()
    requires i < 3
    ensures UN.HasFlag(ApplyFlags(UN.ActionNone, fs), UN.ActionFlags()[i]) <==> UN.ActionFlags()[i] in fs
  {
    UN.FlagsAreDistinctBits();
    NamedSettersRecordExactly(UN.ActionFlags(), fs, i);
  }

  /** The shared step: named flags that are distinct single bits are recorded exactly. */
  lemma NamedSettersRecordExactly(names: seq<bv8>, fs: seq<bv8>, i: nat)
    requires forall k :: 0 <= k < |names| ==> UN.SingleBit(names[k])
    requires forall k, j :: 0 <= k < |names| && 0 <= j < |names| ==> (UN.HasFlag(names[k], names[j]) <==> k == j)
    requires forall k :: 0 <= k < |fs| ==> fs[k] in names
    requires i < |names|
    ensures UN.HasFlag(ApplyFlags(0, fs), names[i]) <==> names[i] in fs
  {
    ApplyFlagsHas(0, fs, names[i]);
    forall y | y in fs
      ensures UN.HasFlag(y, names[i]) <==> y == names[i]
    {
      var k :| 0 <= k < |names| && names[k] == y;
    }
  }

  class CategoryBuilder {
    var identifier: Option<string>
    var actions: seq<UN.Action>
    var intentIdentifiers: seq<string>
    var options: bv8
    var hiddenPreviewBodyPlaceholder: Option<string>
    var categorySummaryFormat: Option<string>

    function Draft(): CategoryDraft
      reads this
    {
      CategoryDraft(identifier, actions, intentIdentifiers, options, hiddenPreviewBodyPlaceholder, categorySummaryFormat)
    }

    constructor ()
      ensures Draft() == CategoryDraft(None, [], [], UN.CategoryNone, None, None)
    {
      identifier, actions, intentIdentifiers, options := None, [], [], UN.CategoryNone;
      hiddenPreviewBodyPlaceholder, categorySummaryFormat := None, None;
    }

    method Identifier(id: string)
      modifies this
      ensures Draft() == old(Draft()).(identifier := Some(id))
    {
      identifier := Some(id);
    }

    method IntentIdentifier(id: string)
      modifies this
      ensures Draft() == old(Draft()).(intentIdentifiers := old(intentIdentifiers) + [id])
    {
      intentIdentifiers := intentIdentifiers + [id];
    }

    method HiddenPreviewBodyPlaceholder(placeholder: string)
      modifies this
      ensures Draft() == old(Draft()).(hiddenPreviewBodyPlaceholder := Some(placeholder))
    {
      hiddenPreviewBodyPlaceholder := Some(placeholder);
    }

    method CategorySummaryFormat(format: string)
      modifies this
      ensures Draft() == old(Draft()).(categorySummaryFormat := Some(format))
    {
      categorySummaryFormat := Some(format);
    }

    method HasCustomDismissAction()
      modifies this
      ensures Draft() == old(Draft()).(options := old(options) | UN.CategoryCustomDismissAction)
    {
      options := options | UN.CategoryCustomDismissAction;
    }

    method DisplayInCarPlay()
      modifies this
      ensures Draft() == old(Draft()).(options := old(options) | UN.CategoryAllowInCarPlay)
    {
      options := options | UN.CategoryAllowInCarPlay;
    }

    method ShowTitleWhenHidden()
      modifies this
      ensures Draft() == old(Draft()).(options := old(options) | UN.CategoryHiddenPreviewShowTitle)
    {
      options := options | UN.CategoryHiddenPreviewShowTitle;
    }

    method ShowSubtitleWhenHidden()
      modifies this
      ensures Draft() == old(Draft()).(options := old(options) | UN.CategoryHiddenPreviewShowSubtitle)
    {
      options := options | UN.CategoryHiddenPreviewShowSubtitle;
    }

    method AllowAnnouncements()
      modifies this
      ensures Draft() == old(Draft()).(options := old(options) | UN.CategoryAllowAnnouncement)
    {
      options := options | UN.CategoryAllowAnnouncement;
    }

    method Action(a: UN.Action)
      modifies this
      ensures Draft() == old(Draft()).(actions := old(actions) + [a])
    {
      actions := actions + [a];
    }

    method Build(freshId: string) returns (c: UN.Category)
      ensures c.identifier == (if identifier.Some? then identifier.value else freshId)
      ensures c.actions == actions && c.intentIdentifiers == intentIdentifiers && c.options == options
      ensures c.hiddenPreviewBodyPlaceholder == hiddenPreviewBodyPlaceholder
      ensures c.categorySummaryFormat == categorySummaryFormat
    {
      var id := if identifier.Some? then identifier.value else freshId;
      c := UN.Category(id, actions, intentIdentifiers, options, hiddenPreviewBodyPlaceholder, categorySummaryFormat);
    }
  }

  /** A snapshot of an `ActionBuilder`'s fields. */
  datatype ActionDraft = ActionDraft(identifier: Option<string>, title: string, icon: Option<UN.ActionIcon>, options: bv8)

  class ActionBuilder {
    var identifier: Option<string>
    var title: string
    var icon: Option<UN.ActionIcon>
    var options: bv8

    function Draft(): ActionDraft
      reads this
    {
      ActionDraft(identifier, title, icon, options)
    }

    constructor NewWithTitle(title: string)
      ensures Draft() == ActionDraft(None, title, None, UN.ActionNone)
    {
      identifier, this.title, icon, options := None, title, None, UN.ActionNone;
    }

    method Identifier(id: string)
      modifies this
      ensures Draft() == old(Draft()).(identifier := Some(id))
    {
      identifier := Some(id);
    }

    method BundleImage(name: string)
      modifies this
      ensures Draft() == old(Draft()).(icon := Some(UN.TemplateImageName(name)))
    {
      icon := Some(UN.TemplateImageName(name));
    }

    method SystemImage(name: string)
      modifies this
      ensures Draft() == old(Draft()).(icon := Some(UN.SystemImageName(name)))
    {
      icon := Some(UN.SystemImageName(name));
    }

    method RequireAuthentication()
      modifies this
      ensures Draft() == old(Draft()).(options := old(options) | UN.ActionAuthenticationRequired)
    {
      options := options | UN.ActionAuthenticationRequired;
    }

    method Destructive()
      modifies this
      ensures Draft() == old(Draft()).(options := old(options) | UN.ActionDestructive)
    {
      options := options | UN.ActionDestructive;
    }

    method Foreground()
      modifies this
      ensures Draft() == old(Draft()).(options := old(options) | UN.ActionForeground)
    {
      options := options | UN.ActionForeground;
    }

    method Build(freshId: string) returns (a: UN.Action)
      ensures a.identifier == (if identifier.Some? then identifier.value else freshId)
      ensures a.title == title && a.icon == icon && a.options == options
    {
      var id := if identifier.Some? then identifier.value else freshId;
      a := UN.Action(id, title, icon, options);
    }
  }
}
