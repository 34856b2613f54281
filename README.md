# mac-notification-sys, modelled in Dafny

mac-notification-sys is a Rust crate that shows desktop notifications on
Apple systems. This project models its logic with the native frameworks
replaced by records. Each record says which setter received which value.
The crate's files come from several revisions with incompatible APIs, so
each file is its own module:

- `AppleOs` (src/os.rs): the running system's `AppleVersion` and its partial
  order against `(AppleOS, major, minor)`. Versions of different systems are
  incomparable. Availability gates are lists of such comparisons.
- `UnNotification` (src/un/notification.rs): the UserNotifications
  conversion layer. It covers notification to request (the OS-gated fields
  and the attachment loop), sound fallbacks, UTTypes, attachment options and
  their dictionary, cron schedule to calendar trigger, categories, actions,
  interruption levels and the bit-flag constants.
- `UnBuilder` (src/un/builder.rs): the notification, attachment, category
  and action builders of the UserNotifications API.
- `Builder` (src/builder.rs): the builders of an intermediate revision.
  Their attachment options form a list that `overwrite_option` keeps at one
  option per kind.
- `LegacyNotification` (src/notification.rs): the NSUserNotification
  `Notification` with its setters, its ten-key dictionary, `send` and the
  response decoder.
- `LegacyLib` (src/lib.rs): the earliest revision's free functions over the
  process-wide "application set" flag, its six-key options dictionary and
  its response decoder.
- `NotifyDelegate` (objc/notify.h): the Objective-C delegate that records a
  notification's activation in `actionData`, and the `NSBundle` swizzle.
- `Bridge`: connects what the delegate writes with what the two Rust
  decoders read.
- `Text`: comma joining and splitting, decimal rendering, and dictionaries
  built from parallel key and value lists. `Wrappers`: `Option` and
  `Result`.

The model replaces each outside dependency with a parameter:

| Dependency | Parameter |
|---|---|
| The running system and the `cfg` target | an `AppleVersion` and a `Target` |
| The clock | `now` |
| UUID generation | `freshId`, `attachmentIds` and `actionIds` |
| The sound-file probe | `soundExists` |
| Native calls that can fail | booleans or functions (`framework`, `deliver`, `schedule`, `nativeSet`, `applicationCheck`) |

Panics are `Failure` results:

- an empty cron unit, or one listing two or more values but not its whole range (a unit whose `is_all()` holds, a `*` or a listed whole range, is `All` and sets nothing);
- `interval` with 60 seconds or less in src/un/builder.rs;
- `set_application(..).unwrap()` in `send_notification`.

## Model

| member | source | states |
|---|---|---|
| AppleOs.AppleVersionFor | src/os.rs:7-31 | The four Apple targets report their own system with the version numbers (when they fit in u16); tvOS and any other target report `None` with 0.0. |
| AppleOs.PartialCmp | src/os.rs:61-77 | `None` exactly when the systems differ; otherwise Equal, Greater or Less exactly as (major, minor) compare lexicographically. |
| AppleOs.CrossOsIncomparable | src/os.rs:63-65 | Across systems, `<`, `<=`, `>`, `>=` and tuple equality are all false. |
| AppleOs.EqVersionAgreesWithCmp | src/os.rs:55-59 | Tuple equality holds exactly when `partial_cmp` gives `Some(Equal)`. |
| AppleOs.SameOsLexicographic | src/os.rs:66-76 | On one system `>` and `<` are the lexicographic order, and exactly one of `<`, `==`, `>` holds: the trailing `None` is unreachable. |
| AppleOs.EqOs | src/os.rs:49-53 | Comparing with a bare `AppleOS` ignores major and minor: it holds exactly when the version is comparable with that system, and exactly when it equals that system at its own numbers. |
| AppleOs.GeDownwardClosed | src/os.rs:61-77 | A version at or above x.y is also at or above any earlier version of the same system. |
| AppleOs.ClauseFor | src/un/notification.rs:173-190 | Finds the gate clause naming a given system, if there is one. |
| AppleOs.ClauseNamesRunningOs | src/os.rs:63-65 | A clause can only hold for the system it names. |
| AppleOs.GateReducesToRunningOs | src/un/notification.rs:160-219 | A gate whose clauses name distinct systems holds exactly when the running system's own clause holds. |
| AppleOs.NoGateHoldsWithoutOs | src/os.rs:27-30 | With no Apple system (`None`), no gate over real systems holds. |
| UnNotification.SoundToNative | src/un/notification.rs:262-361 | The sound is the requested one exactly when its gate and target allow it; otherwise it is the default sound. |
| UnNotification.RingtonesDefaultOffIOS | src/un/notification.rs:281-291 | Ringtone sounds fall back to the default on every non-iOS build. |
| UnNotification.RingtoneGateIsOneComparison | src/un/notification.rs:281-291 | The ringtone gate is just "iOS 15.2 or later". |
| UnNotification.CriticalSoundOnMacOS | src/un/notification.rs:269-280 | On macOS the default critical sound is used exactly from 10.14 on. |
| UnNotification.AudioUTType | src/un/notification.rs:377-386 | Waveform audio, MP3, MPEG-4 audio and AIFF map to the WAV, MP3, MPEG-4 audio and AIFF types, each format to its own. |
| UnNotification.VideoUTType | src/un/notification.rs:401-410 | MPEG, AVI movie, MPEG-4 and MPEG-2 video map to the MPEG, AVI, MPEG-4 movie and MPEG-2 video types, each format to its own. |
| UnNotification.ImageUTType | src/un/notification.rs:421-428 | PNG maps to the PNG type and JPEG to the JPEG type. |
| UnNotification.AnimatedImageUTType | src/un/notification.rs:439-446 | Animated PNG maps to the PNG type and GIF to the GIF type. |
| UnNotification.UTTypesDistinguishFormats | src/un/notification.rs:377-446 | Within each kind, distinct formats give distinct UTTypes; still and animated PNG share one. |
| UnNotification.SetFormat | src/un/notification.rs:487-587 | `set_format` keeps the kind of options, stores exactly the given format (so the type hint is that format's UTType) and leaves hidden, crop, time and frame alone. |
| UnNotification.HideThumbnail | src/un/notification.rs:517-584 | `hide_thumbnail` sets only the hidden option and keeps the variant. |
| UnNotification.CropThumbnail | src/un/notification.rs:517-587 | `crop_thumbnail` sets only the clipping rectangle and keeps the variant. |
| UnNotification.BuildOptionsDictionary | src/un/notification.rs:623-762 | The loop that fills the options dictionary yields the reference dictionary of present options. |
| UnNotification.TypeHintIffFormat | src/un/notification.rs:627-641 | The type-hint key is present exactly when a format is set, holding its UTType. |
| UnNotification.AudioHasNoThumbnailKeys | src/un/notification.rs:643-697 | Audio options never write the hidden or clipping keys. |
| UnNotification.VideoTimeWrittenOffWatchOS | src/un/notification.rs:709-762 | A video thumbnail time is written on every non-watchOS system, because `av < (WatchOS, 6, 0)` is false across systems. |
| UnNotification.AnimatedFrameUsesTimeKey | src/un/notification.rs:699-707 | An animated frame number is written under the thumbnail-time key. |
| UnNotification.AttachmentToNative | src/un/notification.rs:613-777 | The attachment carries the identifier and URL; it has an options dictionary exactly when options were given; the framework's refusal is the error. |
| UnNotification.ConvertAttachmentsFirstRefusal | src/un/notification.rs:113-120 | The list fails exactly when some attachment is refused, and then with the first refusal's error; on success every attachment converts, in order. |
| UnNotification.RefusalPersists | src/un/notification.rs:113-120 | Once a prefix has failed, later attachments do not change the outcome. |
| UnNotification.FirstCronUnit | src/un/notification.rs:807-820 | "Every" gives no value, a single value gives it, an empty unit panics "invalid cron pattern", and two or more panic "Unsupported cron pattern". |
| UnNotification.IntervalsAndRangesPanic | src/un/notification.rs:1172-1188 | Year intervals and ranges (several values) panic. |
| UnNotification.DayOfMonthOverwritesMonth | src/un/notification.rs:843-845 | As written, the day of the month replaces the month and the day is never set; the intended components keep both. |
| UnNotification.FirstOfDecemberBecomesJanuary | src/un/notification.rs:839-845 | For 1 December 2019 the code as written asks for month 1, not month 12 day 1. |
| UnNotification.WellFormedComponentsInRange | src/un/notification.rs:833-862 | For a schedule as the cron parser builds it, every intended component lies in its field's range; as written, a day of the month after the 12th becomes a month outside 1..12. |
| UnNotification.CalendarFailsOnMultiValuedUnit | src/un/notification.rs:833-862 | The calendar conversion succeeds exactly when every unit is "every" or single-valued. |
| UnNotification.CalendarComponents | src/un/notification.rs:833-862 | Filling the date components setter by setter gives the intended components: each unit in its own field, the day of week as weekday ordinal. |
| UnNotification.TriggerToNative | src/un/notification.rs:805-876 | `repeats` passes through; interval triggers keep the duration; a calendar trigger succeeds exactly when its components do, and then carries the intended components; otherwise it fails with one of the two cron panics. |
| UnNotification.ComponentsFromUnits | src/un/notification.rs:833-862 | Each intended component is its own cron unit's single value, the day of the week as the weekday ordinal; as written, the month holds the day of the month whenever one is given, the day stays unset and every other component is the intended one. |
| UnNotification.InterruptionLevelRoundTrip | src/un/notification.rs:1117-1126 | The mapping to the native interruption level is a bijection. |
| UnNotification.FlagsAreDistinctBits | src/un/notification.rs:1035-1095 | The action, category and authorization options have their `bitflags!` values: `None` is 0, every other flag is a single bit, and a named flag contains no other flag of its set. |
| UnNotification.ActionToNative | src/un/notification.rs:961-1012 | An action keeps identifier, title and options; it has an icon exactly when one was given and the icon gate holds, with the right icon kind. |
| UnNotification.CategoryToNative | src/un/notification.rs:898-947 | A category keeps its identifier, options, placeholder and summary format. On tvOS it has no actions or intents; elsewhere its actions are converted in order. |
| UnNotification.ConvertAttachmentList | src/un/notification.rs:112-120 | The attachment loop yields the reference list conversion, stopping at the first refusal. |
| UnNotification.CopyUserInfo | src/un/notification.rs:122-129 | The user-info dictionary holds exactly the given keys and values. |
| UnNotification.FillContent | src/un/notification.rs:98-218 | Calling the content setters one by one yields the reference content. |
| UnNotification.NotificationToRequest | src/un/notification.rs:91-234 | The request conversion yields the reference conversion: refused attachments abort it, else content and trigger form the request. |
| UnNotification.ContentCopiesPlainFields | src/un/notification.rs:100-158 | The body is always set; title, subtitle and badge are set exactly when given; off tvOS, thread, category and sound are too; there is never a launch image on macOS. |
| UnNotification.GatedFieldsNeedTheirGate | src/un/notification.rs:160-219 | Target content, summary, interruption/relevance and filter criteria are set only when their gate holds. |
| UnNotification.SummaryGateOnMacOS | src/un/notification.rs:173-190 | On macOS the summary gate has no upper bound: any version from 10.14 on passes. |
| UnNotification.SummaryGateOnIOS | src/un/notification.rs:173-190 | On iOS the summary gate holds exactly from 12.0 to 15.0. |
| UnNotification.ContentGatesNameRealSystems | src/un/notification.rs:160-219 | No content gate has a clause for `None`. |
| UnNotification.TvOSBuildSetsNoGatedField | src/un/notification.rs:160-219 | A tvOS build sets no gated field, no attachments, no user info and no sound. |
| UnNotification.RefusedAttachmentAborts | src/un/notification.rs:112-120 | The first refused attachment makes the whole conversion fail with that refusal. |
| UnBuilder.Assemble | src/un/builder.rs:360-388 | `build` copies every field; the identifier is the given one, else the fresh id. |
| UnBuilder.AssembleIgnoresFreshIdOnceIdentified | src/un/builder.rs:360-388 | With an identifier set, the fresh id does not matter. |
| UnBuilder.AssembleDependsOnFreshIdOnlyThroughIdentifier | src/un/builder.rs:360-388 | Without one, the fresh id becomes the identifier and changes nothing else. |
| UnBuilder.PlainNotificationConverts | src/un/builder.rs:76-81 | A notification with only a body and an identifier converts to a request with that identifier and body. |
| UnBuilder.DateTimeToSchedule | src/un/builder.rs:755-762 | A date and time becomes a schedule of single values for its own fields and "every" day of week. |
| UnBuilder.ScheduledDateComponents | src/un/builder.rs:263-269 | For a scheduled date the intended components hold the right month and day, while the code as written puts the day in the month. |
| UnBuilder.DateScheduleWellFormed | src/un/builder.rs:755-762 | A date with in-range fields schedules a well-formed cron pattern. |
| UnBuilder.OrFlagKeepsOthers | src/un/builder.rs:616-648 | OR-ing a flag sets it, keeps every flag already set, is idempotent, and two flags OR-ed in either order give the same options. |
| UnBuilder.ApplyFlagsHas | src/un/builder.rs:616-648 | After a sequence of flag setters, a one-bit flag is set exactly when it was set before or one of the setters' flags has it. |
| UnBuilder.SetterOrderIrrelevant | src/un/builder.rs:616-648 | Two sequences of flag setters naming the same flags, in any order and with repeats, leave the same options. |
| UnBuilder.CategorySettersRecordExactly | src/un/builder.rs:616-648 | From a fresh category builder, a named category flag is set exactly when one of the setter calls set it. |
| UnBuilder.ActionSettersRecordExactly | src/un/builder.rs:720-735 | From a fresh action builder, a named action flag is set exactly when one of the setter calls set it. |
| UnBuilder.NotificationBuilder.NewWithBody | src/un/builder.rs:76-81 | A new builder holds the body and nothing else. |
| UnBuilder.NotificationBuilder.Title | src/un/builder.rs:84-87 | Only the title changes. |
| UnBuilder.NotificationBuilder.Subtitle | src/un/builder.rs:90-93 | Only the subtitle changes. |
| UnBuilder.NotificationBuilder.Body | src/un/builder.rs:96-99 | Only the body changes. |
| UnBuilder.NotificationBuilder.UserData | src/un/builder.rs:102-109 | The key maps to the latest value; other keys and fields are unchanged. |
| UnBuilder.NotificationBuilder.Identifier | src/un/builder.rs:112-115 | Only the identifier changes. |
| UnBuilder.NotificationBuilder.Attachment | src/un/builder.rs:119-122 | The attachment is appended; nothing else changes. |
| UnBuilder.NotificationBuilder.Category | src/un/builder.rs:125-128 | The category identifier becomes the category's identifier. |
| UnBuilder.NotificationBuilder.CategoryId | src/un/builder.rs:131-134 | Only the category identifier changes. |
| UnBuilder.NotificationBuilder.LaunchImage | src/un/builder.rs:138-141 | Only the launch image changes. |
| UnBuilder.NotificationBuilder.Thread | src/un/builder.rs:144-147 | Only the thread identifier changes. |
| UnBuilder.NotificationBuilder.DefaultSound | src/un/builder.rs:150-155 | Only the sound changes, to the default. |
| UnBuilder.NotificationBuilder.Sound | src/un/builder.rs:157-162 | Only the sound changes, to the named sound. |
| UnBuilder.NotificationBuilder.DefaultCriticalSound | src/un/builder.rs:164-169 | Only the sound changes. |
| UnBuilder.NotificationBuilder.DefaultCriticalSoundWithVolume | src/un/builder.rs:171-175 | Only the sound changes. |
| UnBuilder.NotificationBuilder.CriticalSound | src/un/builder.rs:177-182 | Only the sound changes. |
| UnBuilder.NotificationBuilder.CriticalSoundWithVolume | src/un/builder.rs:184-196 | Only the sound changes. |
| UnBuilder.NotificationBuilder.DefaultRingtone | src/un/builder.rs:198-203 | Only the sound changes. |
| UnBuilder.NotificationBuilder.Ringtone | src/un/builder.rs:205-208 | Only the sound changes. |
| UnBuilder.NotificationBuilder.Interval | src/un/builder.rs:214-225 | Succeeds exactly when the duration exceeds 60 seconds, then stores a repeating interval trigger; otherwise nothing changes. |
| UnBuilder.NotificationBuilder.Delay | src/un/builder.rs:228-234 | Stores a one-shot interval trigger. |
| UnBuilder.NotificationBuilder.CronOneTime | src/un/builder.rs:241-247 | Stores a one-shot calendar trigger. |
| UnBuilder.NotificationBuilder.Cron | src/un/builder.rs:254-260 | Stores a repeating calendar trigger. |
| UnBuilder.NotificationBuilder.Schedule | src/un/builder.rs:263-269 | Stores a one-shot calendar trigger for the date's schedule. |
| UnBuilder.NotificationBuilder.AsActive | src/un/builder.rs:275-278 | Only the interruption level changes. |
| UnBuilder.NotificationBuilder.AsCritical | src/un/builder.rs:284-287 | Only the interruption level changes. |
| UnBuilder.NotificationBuilder.AsPassive | src/un/builder.rs:293-296 | Only the interruption level changes. |
| UnBuilder.NotificationBuilder.AsTimeSensitive | src/un/builder.rs:303-306 | Only the interruption level changes. |
| UnBuilder.NotificationBuilder.SummaryArgument | src/un/builder.rs:310-316 | Only the summary argument changes. |
| UnBuilder.NotificationBuilder.SummaryArgumentCount | src/un/builder.rs:320-323 | Only the summary argument count changes. |
| UnBuilder.NotificationBuilder.BadgeCount | src/un/builder.rs:326-329 | Only the badge changes. |
| UnBuilder.NotificationBuilder.TargetContentIdentifier | src/un/builder.rs:333-339 | Only the target content identifier changes. |
| UnBuilder.NotificationBuilder.RelevanceScore | src/un/builder.rs:345-348 | Only the relevance score changes. |
| UnBuilder.NotificationBuilder.FilterCriteria | src/un/builder.rs:354-357 | Only the filter criteria change. |
| UnBuilder.NotificationBuilder.Build | src/un/builder.rs:360-388 | The notification is the assembly of the builder's fields; the builder is not modified. |
| UnBuilder.AttachmentBuilder.Video | src/un/builder.rs:402-435 | A video attachment builder starts with empty video options. |
| UnBuilder.AttachmentBuilder.Audio | src/un/builder.rs:402-435 | An audio attachment builder starts with empty audio options. |
| UnBuilder.AttachmentBuilder.Image | src/un/builder.rs:402-435 | An image attachment builder starts with empty image options. |
| UnBuilder.AttachmentBuilder.AnimatedImage | src/un/builder.rs:402-435 | An animated image attachment builder starts with empty options. |
| UnBuilder.AttachmentBuilder.Identifier | src/un/builder.rs:438-441 | Only the identifier changes. |
| UnBuilder.AttachmentBuilder.Format | src/un/builder.rs:457-460 | The options become `set_format` of the old ones: the same kind, holding exactly the given format, with every thumbnail option kept. |
| UnBuilder.AttachmentBuilder.CropThumbnail | src/un/builder.rs:470-474 | The options become `crop_thumbnail` of the old ones. |
| UnBuilder.AttachmentBuilder.HideThumbnail | src/un/builder.rs:477-480 | The options become `hide_thumbnail` of the old ones. |
| UnBuilder.AttachmentBuilder.ThumbnailFrame | src/un/builder.rs:485-488 | Only the animated thumbnail frame changes. |
| UnBuilder.AttachmentBuilder.ThumbnailFromStart | src/un/builder.rs:503-506 | Only the video thumbnail time changes, to the start. |
| UnBuilder.AttachmentBuilder.ThumbnailFromEnd | src/un/builder.rs:509-512 | Only the video thumbnail time changes, to the end. |
| UnBuilder.AttachmentBuilder.ThumbnailTime | src/un/builder.rs:515-518 | Only the video thumbnail time changes, to the duration. |
| UnBuilder.AttachmentBuilder.Build | src/un/builder.rs:491-549 | The attachment has the given identifier (else the fresh one), the URL and the options of the builder's kind. |
| UnBuilder.CategoryBuilder.constructor | src/un/builder.rs:573-582 | A new category builder is empty with no options. |
| UnBuilder.CategoryBuilder.Identifier | src/un/builder.rs:585-588 | Only the identifier changes. |
| UnBuilder.CategoryBuilder.IntentIdentifier | src/un/builder.rs:592-595 | The intent identifier is appended; nothing else changes. |
| UnBuilder.CategoryBuilder.HiddenPreviewBodyPlaceholder | src/un/builder.rs:599-605 | Only the placeholder changes. |
| UnBuilder.CategoryBuilder.CategorySummaryFormat | src/un/builder.rs:609-612 | Only the summary format changes. |
| UnBuilder.CategoryBuilder.HasCustomDismissAction | src/un/builder.rs:616-619 | ORs in the custom dismiss flag; nothing else changes. |
| UnBuilder.CategoryBuilder.DisplayInCarPlay | src/un/builder.rs:622-625 | ORs in the CarPlay flag. |
| UnBuilder.CategoryBuilder.ShowTitleWhenHidden | src/un/builder.rs:629-632 | ORs in the show-title flag. |
| UnBuilder.CategoryBuilder.ShowSubtitleWhenHidden | src/un/builder.rs:636-639 | ORs in the show-subtitle flag. |
| UnBuilder.CategoryBuilder.AllowAnnouncements | src/un/builder.rs:645-648 | ORs in the announcement flag. |
| UnBuilder.CategoryBuilder.Action | src/un/builder.rs:653-656 | The action is appended; nothing else changes. |
| UnBuilder.CategoryBuilder.Build | src/un/builder.rs:659-674 | The category keeps the actions and intents in order and every other field; the identifier is the given one, else the fresh one. |
| UnBuilder.ActionBuilder.NewWithTitle | src/un/builder.rs:691-698 | A new action builder has the title, no identifier, no icon and no options. |
| UnBuilder.ActionBuilder.Identifier | src/un/builder.rs:701-704 | Only the identifier changes. |
| UnBuilder.ActionBuilder.BundleImage | src/un/builder.rs:708-711 | Only the icon changes, to a template image. |
| UnBuilder.ActionBuilder.SystemImage | src/un/builder.rs:714-717 | Only the icon changes, to a system image. |
| UnBuilder.ActionBuilder.RequireAuthentication | src/un/builder.rs:720-723 | ORs in the authentication flag. |
| UnBuilder.ActionBuilder.Destructive | src/un/builder.rs:726-729 | ORs in the destructive flag. |
| UnBuilder.ActionBuilder.Foreground | src/un/builder.rs:732-735 | ORs in the foreground flag. |
| UnBuilder.ActionBuilder.Build | src/un/builder.rs:738-752 | The action keeps title, icon and options; the identifier is the given one, else the fresh one. |
| Builder.RetainRemovesExactlyTheMatches | src/builder.rs:404-410 | `retain` keeps exactly the options the predicate rejects. |
| Builder.RetainKeepsOtherOptionsInOrder | src/builder.rs:404-410 | `retain` leaves the options of any other kind in their relative order. |
| Builder.SelectAppend | src/builder.rs:404-410 | Selecting from two concatenated lists is the concatenation of the selections. |
| Builder.SelectNoneOfRetain | src/builder.rs:404-410 | After `retain(p)`, no option satisfies `p`. |
| Builder.OverwriteOptionSpec | src/builder.rs:404-410 | After `overwrite_option`, the new value is the only option satisfying the predicate and is last; the other options keep their order. |
| Builder.OverwriteKeepsOnePerKind | src/builder.rs:412-478 | Overwriting by kind keeps at most one option of each kind. |
| Builder.RetainOnePerKind | src/builder.rs:404-410 | `retain` keeps the at-most-one-per-kind invariant. |
| Builder.LastThumbnailTimeWins | src/builder.rs:432-466 | Two thumbnail-time setters in a row leave only the second value. |
| Builder.AttachmentBuilder.Built | src/builder.rs:481-494 | The built attachment has the given identifier (else the fresh one), the URL and the options in order. |
| Builder.AttachmentBuilder.constructor | src/builder.rs:390-396 | A new builder has the URL, no identifier and no options. |
| Builder.AttachmentBuilder.Identifier | src/builder.rs:399-402 | Only the identifier changes. |
| Builder.AttachmentBuilder.OverwriteOption | src/builder.rs:404-410 | The loop-based `retain` then `push` leaves exactly the old options the predicate rejects, in order, followed by the new one. |
| Builder.AttachmentBuilder.TypeHint | src/builder.rs:414-420 | Overwrites the type hint and keeps one option per kind. |
| Builder.AttachmentBuilder.HideThumbnail | src/builder.rs:424-430 | Overwrites the hidden flag and keeps one option per kind. |
| Builder.AttachmentBuilder.VideoThumbnailAtTime | src/builder.rs:433-439 | Overwrites the thumbnail-time slot with the time. |
| Builder.AttachmentBuilder.VideoThumbnailAtStart | src/builder.rs:442-448 | Overwrites the thumbnail-time slot with the start. |
| Builder.AttachmentBuilder.VideoThumbnailAtEnd | src/builder.rs:451-457 | Overwrites the thumbnail-time slot with the end. |
| Builder.AttachmentBuilder.AnimationThumbnailFrame | src/builder.rs:460-466 | Overwrites the same thumbnail-time slot with a frame number. |
| Builder.AttachmentBuilder.CropThumbnail | src/builder.rs:472-478 | Overwrites the clipping rectangle and keeps one option per kind. |
| Builder.AttachmentBuilder.Build | src/builder.rs:481-494 | Returns the built attachment. |
| Builder.ActionBuilder.Built | src/builder.rs:680-694 | The built action has the given identifier (else the fresh one), the title, the icon and the options. |
| Builder.ActionBuilder.NewWithTitle | src/builder.rs:634-641 | A new action builder has the title, no identifier, no icon and no options. |
| Builder.ActionBuilder.Identifier | src/builder.rs:644-647 | Only the identifier changes. |
| Builder.ActionBuilder.BundleImage | src/builder.rs:651-654 | Only the icon changes. |
| Builder.ActionBuilder.SystemImage | src/builder.rs:657-660 | Only the icon changes. |
| Builder.ActionBuilder.RequireAuthentication | src/builder.rs:663-666 | ORs in the flag; nothing else changes. |
| Builder.ActionBuilder.Destructive | src/builder.rs:669-672 | ORs in the flag; nothing else changes. |
| Builder.ActionBuilder.Foreground | src/builder.rs:675-678 | ORs in the flag; nothing else changes. |
| Builder.ActionBuilder.Build | src/builder.rs:680-694 | Returns the built action. |
| Builder.CategoryBuilder.constructor | src/builder.rs:518-527 | A new category builder is empty with no options. |
| Builder.CategoryBuilder.Identifier | src/builder.rs:530-533 | Only the identifier changes. |
| Builder.CategoryBuilder.IntentIdentifier | src/builder.rs:537-540 | The intent identifier is appended; nothing else changes. |
| Builder.CategoryBuilder.HiddenPreviewBodyPlaceholder | src/builder.rs:544-550 | Only the placeholder changes. |
| Builder.CategoryBuilder.CategorySummaryFormat | src/builder.rs:554-557 | Only the summary format changes. |
| Builder.CategoryBuilder.HasCustomDismissAction | src/builder.rs:561-564 | ORs in the custom dismiss flag; nothing else changes. |
| Builder.CategoryBuilder.DisplayInCarPlay | src/builder.rs:567-570 | ORs in the CarPlay flag. |
| Builder.CategoryBuilder.ShowTitleWhenHidden | src/builder.rs:574-577 | ORs in the show-title flag. |
| Builder.CategoryBuilder.ShowSubtitleWhenHidden | src/builder.rs:581-584 | ORs in the show-subtitle flag. |
| Builder.CategoryBuilder.AllowAnnouncements | src/builder.rs:589-592 | ORs in the announcement flag. |
| Builder.CategoryBuilder.Action | src/builder.rs:595-600 | Appends a fresh action builder with the title, no icon and no options, and returns the element at the old length. |
| Builder.CategoryBuilder.Build | src/builder.rs:603-618 | The category builds its actions in list order and keeps every other field; the identifier is the given one, else the fresh one. |
| Builder.NotificationBuilder.NewWithBody | src/builder.rs:72-77 | A new builder holds the body and nothing else. |
| Builder.NotificationBuilder.Title | src/builder.rs:80-83 | Only the title changes. |
| Builder.NotificationBuilder.Subtitle | src/builder.rs:86-89 | Only the subtitle changes. |
| Builder.NotificationBuilder.Body | src/builder.rs:92-95 | Only the body changes. |
| Builder.NotificationBuilder.UserData | src/builder.rs:98-105 | The key maps to the latest value; nothing else changes. |
| Builder.NotificationBuilder.Identifier | src/builder.rs:108-111 | Only the identifier changes. |
| Builder.NotificationBuilder.Attachment | src/builder.rs:116-120 | Appends a fresh attachment builder with the URL, no id and no options, and returns the element at the old length. |
| Builder.NotificationBuilder.Category | src/builder.rs:123-126 | The category identifier becomes the category's identifier. |
| Builder.NotificationBuilder.CategoryId | src/builder.rs:129-132 | Only the category identifier changes. |
| Builder.NotificationBuilder.LaunchImage | src/builder.rs:136-139 | Only the launch image changes. |
| Builder.NotificationBuilder.Thread | src/builder.rs:142-145 | Only the thread identifier changes. |
| Builder.NotificationBuilder.SetSound | src/builder.rs:148-206 | Only the sound changes. |
| Builder.NotificationBuilder.Interval | src/builder.rs:210-216 | Stores a repeating interval trigger, with no minimum duration. |
| Builder.NotificationBuilder.Delay | src/builder.rs:219-225 | Stores a one-shot interval trigger. |
| Builder.NotificationBuilder.CronOneTime | src/builder.rs:229-235 | Stores a one-shot calendar trigger. |
| Builder.NotificationBuilder.Cron | src/builder.rs:239-245 | Stores a repeating calendar trigger. |
| Builder.NotificationBuilder.SetInterruptionLevel | src/builder.rs:260-291 | Only the interruption level changes. |
| Builder.NotificationBuilder.SummaryArgument | src/builder.rs:295-301 | Only the summary argument changes. |
| Builder.NotificationBuilder.SummaryArgumentCount | src/builder.rs:305-308 | Only the summary argument count changes. |
| Builder.NotificationBuilder.BadgeCount | src/builder.rs:311-314 | Only the badge changes. |
| Builder.NotificationBuilder.TargetContentIdentifier | src/builder.rs:318-324 | Only the target content identifier changes. |
| Builder.NotificationBuilder.RelevanceScore | src/builder.rs:330-333 | Only the relevance score changes. |
| Builder.NotificationBuilder.FilterCriteria | src/builder.rs:339-342 | Only the filter criteria change. |
| Builder.NotificationBuilder.Build | src/builder.rs:345-377 | Every field is copied, the identifier is the given one (else the fresh one), and the attachments are built in list order. |
| Text.SplitJoin | src/notification.rs:283 | Splitting a comma-joined non-empty list of comma-free names gives the list back. |
| Text.JoinLosesEmptyList | src/notification.rs:283 | No actions and one empty action join to the same text. |
| Text.DecimalRoundTrip | objc/notify.h:65 | Reading back a decimal rendering gives the number. |
| Text.IntToDecimalInjective | src/notification.rs:289-292 | Distinct whole numbers render to distinct text. |
| Text.FromKeysAndObjects | src/notification.rs:302 | The dictionary has exactly the listed keys, and with distinct keys the i-th key maps to the i-th value. |
| Text.DistinctKeysCount | src/notification.rs:250-261 | Distinct keys make a dictionary of that many entries. |
| LegacyNotification.SoundFrom | src/notification.rs:53-60 | Any text converts to a custom sound of that name. |
| LegacyNotification.ToDictionary | src/notification.rs:248-303 | The dictionary has exactly the ten keys, each holding the value at its position. |
| LegacyNotification.ToDictionaryHasTenKeys | src/notification.rs:250-261 | Every notification yields the same ten keys. |
| LegacyNotification.MainButtonEncoding | src/notification.rs:262-272 | A single action gives (caption, "", no reply); a dropdown gives (caption, joined actions, no reply); a reply button gives (placeholder, "", "yes"); none gives ("", "", ""). |
| LegacyNotification.ResponseFlag | src/notification.rs:288 | `response` is "yes" exactly for a reply button, otherwise "". |
| LegacyNotification.AsynchronousFlag | src/notification.rs:294-297 | `asynchronous` is "yes" exactly for `Some(true)`, otherwise "no". |
| LegacyNotification.ClickFlag | src/notification.rs:300 | `click` is "yes" or "no" as `wait_for_click` says. |
| LegacyNotification.OptionalTextEncoding | src/notification.rs:284-286 | Close button, app icon and content image fall back to "". |
| LegacyNotification.SoundEncoding | src/notification.rs:274-278 | A custom sound gives its name, the default gives the system default's name, and none gives "". |
| LegacyNotification.SoundFromEncodesItsText | src/notification.rs:53-60 | A sound made from text is sent under that text. |
| LegacyNotification.SoundEncodingCollisions | src/notification.rs:274-278 | A custom sound named like the default looks like the default, and an empty custom name looks like no sound. |
| LegacyNotification.DropdownActionsRoundTrip | src/notification.rs:283 | Dropdown actions without commas survive the dictionary. |
| LegacyNotification.DeliveryDateEncoding | src/notification.rs:289-292 | The delivery date is "" when absent and otherwise its decimal rendering; distinct dates give distinct entries. |
| LegacyNotification.FromDictionary | src/notification.rs:359-386 | Each response kind corresponds exactly to its activation type; the three with a value carry `activationValue`, or "" when it is missing. |
| LegacyNotification.UnknownActivationIsNone | src/notification.rs:384 | A missing or unknown activation type decodes to no interaction. |
| LegacyNotification.Notification.constructor | src/notification.rs:80-82 | A new notification has the default fields. |
| LegacyNotification.Notification.Title | src/notification.rs:85-88 | Only the title changes. |
| LegacyNotification.Notification.Subtitle | src/notification.rs:91-94 | Only the subtitle changes, to `Some`. |
| LegacyNotification.Notification.MaybeSubtitle | src/notification.rs:97-100 | Only the subtitle changes, and it can be reset to none. |
| LegacyNotification.Notification.Message | src/notification.rs:103-106 | Only the message changes. |
| LegacyNotification.Notification.SetMainButton | src/notification.rs:116-119 | Only the main button changes. |
| LegacyNotification.Notification.SetCloseButton | src/notification.rs:129-132 | Only the close button changes. |
| LegacyNotification.Notification.AppIcon | src/notification.rs:144-147 | Only the app icon changes. |
| LegacyNotification.Notification.ContentImage | src/notification.rs:157-160 | Only the content image changes. |
| LegacyNotification.Notification.DeliveryDate | src/notification.rs:171-174 | Only the delivery date changes. |
| LegacyNotification.Notification.DefaultSound | src/notification.rs:183-186 | Only the sound changes, to the default. |
| LegacyNotification.Notification.SetSound | src/notification.rs:195-201 | Only the sound changes, to `Some`. |
| LegacyNotification.Notification.MaybeSound | src/notification.rs:211-217 | Only the sound changes, and it can be reset to none. |
| LegacyNotification.Notification.Asynchronous | src/notification.rs:229-232 | Only the asynchronous flag changes. |
| LegacyNotification.Notification.WaitForClick | src/notification.rs:242-245 | Only the click flag changes. |
| LegacyNotification.Notification.Send | src/notification.rs:309-339 | A past delivery date fails first, then a failed application check; a response holding "error" is exactly `UnableToDeliver`; otherwise the decoded response. |
| LegacyLib.ToDictionary | src/lib.rs:84-113 | The dictionary has exactly the six keys, each holding the value at its position. |
| LegacyLib.ToDictionaryHasSixKeys | src/lib.rs:84-113 | Every options value yields the same six keys. |
| LegacyLib.MainButtonEncoding | src/lib.rs:84-113 | The main button fills the caption and the comma-joined actions; without one both are "". |
| LegacyLib.OptionalTextEncoding | src/lib.rs:84-113 | Close button, icon, image and group fall back to "". |
| LegacyLib.DefaultDictionaryIsBlank | src/lib.rs:74-113 | The default options map all six keys to "". |
| LegacyLib.FromDictionary | src/lib.rs:126-158 | Each response kind corresponds exactly to its activation type; the three with a value carry `activationValue`, or "". |
| LegacyLib.UseSound | src/lib.rs:226-229 | The requested sound when its file exists, otherwise "_mute". |
| LegacyLib.GetBundleIdentifierOrDefault | src/lib.rs:266-268 | The looked-up identifier, or "com.apple.Finder" when there is none. |
| LegacyLib.ScheduleNotification | src/lib.rs:177-206 | A past date fails with `ScheduleInThePast` before anything else; otherwise it succeeds exactly when the native scheduler accepts. |
| LegacyLib.Library.constructor | src/lib.rs:219-241 | The application flag starts unset. |
| LegacyLib.Library.SetApplication | src/lib.rs:281-294 | `AlreadySet` once the flag is set; otherwise the flag is set before the native call, so it stays set even on `CouldNotSet`. |
| LegacyLib.Library.SendNotification | src/lib.rs:219-262 | The flag is set afterwards. A refused first set panics. Otherwise the result is `UnableToDeliver` exactly when the response holds "error". The sound and default options are passed as `UseSound` and `DefaultOptions` say. |
| LegacyLib.SetApplicationTwice | tests/application.rs:4-7 | A second `set_application` always fails with `AlreadySet`, whatever the first returned. |
| NotifyDelegate.ActionClickData | objc/notify.h:52-70 | With at most one alternate title, or index `LONG_MAX`, the value is the action button's title. Otherwise it is the alternate at the index plus the index in decimal. An index out of range raises. |
| NotifyDelegate.ActivationData | objc/notify.h:51-86 | Contents clicked gives only "contentsClicked"; replied gives the reply text; none or unknown gives "none"; action clicks give the action data. |
| NotifyDelegate.DismissData | objc/notify.h:98 | Exactly "closeClicked" with the other button's title. |
| NotifyDelegate.Without | objc/notify.h:92 | Removing a notification keeps exactly the other delivered notifications. |
| NotifyDelegate.NotificationCenter.RemoveDeliveredNotification | objc/notify.h:92 | The delivered list loses the notification. |
| NotifyDelegate.NotificationCenterDelegate.constructor | objc/notify.h:28-31 | The delegate starts running with no action data. |
| NotifyDelegate.NotificationCenterDelegate.DidDeliverNotification | objc/notify.h:36-42 | `keepRunning` is cleared exactly when there is neither an action button nor a reply button; otherwise it is unchanged. |
| NotifyDelegate.NotificationCenterDelegate.DidActivateNotification | objc/notify.h:45-93 | Raises exactly when the alternate index is out of range, changing nothing; otherwise it records the activation data, stops the run loop and removes the notification. |
| NotifyDelegate.NotificationCenterDelegate.DidDismissAlert | objc/notify.h:96-105 | Records the dismiss data, stops the run loop and removes the notification. |
| NotifyDelegate.BundleHook.constructor | objc/notify.h:6 | The hook starts not installed. |
| NotifyDelegate.BundleHook.InstallNSBundleHook | objc/notify.h:18-26 | Exchanges the two getters exactly when the class is found, and reports whether it did. |
| NotifyDelegate.BundleHook.BundleIdentifier | objc/notify.h:9-15 | Once hooked, the main bundle reports the fake identifier, else "com.apple.Terminal"; other bundles keep their own. |
| Bridge.ActivationDecodes | objc/notify.h:45-93 | Every activation the delegate records decodes to what it means; "none" decodes to no interaction in both revisions. |
| Bridge.DismissDecodes | objc/notify.h:96-105 | A dismissed alert decodes to the close button's title in both revisions. |
| Bridge.DecodersAgree | src/lib.rs:126-158 | Both revisions' decoders read every dictionary the same way, up to renaming. |

## Left out

- Floating point is not modelled. Relevance scores, volumes and clipping rectangles are opaque values (`F32`). The CMTime seconds conversion (src/un/notification.rs:745-749) is an opaque value.
- LegacyNotification.Notification.DeliveryDate: the delivery date is a whole number of seconds. `f64::to_string` of a fractional date, and comparing a fractional date with the clock, are not modelled.
- UnNotification.FirstCronUnit: `is_all()` belongs to the cron crate, which is not part of this model. A unit that lists its field's whole range is expected as `All`, and `WellFormedSchedule` states the parser's guarantees (ordinals ascending, in range, never the whole range). The field ranges in `WellFormedSchedule` are the cron crate's: seconds and minutes 0-59, hours 0-23, days 1-31, months 1-12, weekdays 1-7, years 1970-2100. The trigger conversion does not require it, because its contract holds for every schedule.
- LegacyLib.ScheduleNotification: the `f64` delivery date is a whole number of seconds here too, so a fractional date and its comparison with the clock are not modelled.
- Native objects are records of the values their setters received. `getImageFromURL`, NSURL parsing and image loading are not part of this model.
- The `NSRangeException` of an out-of-range alternate index is the `raised` result of `DidActivateNotification`.
- The private `_alternateActionButtonTitles` and `_alternateActionIndex` values, and `hasActionButton`/`hasReplyButton`, are fields of the notification record.
- `ensure_application_set`, `check_sound` and the native bundle lookup are not part of this model. Their outcomes are the parameters `applicationCheck`, `soundExists` and `bundleLookup`.
- LegacyLib.Library.SendNotification: the decoded response is only printed in the source. The printing is left out.
- The `fakeBundleIdentifier` assignment lives in the Objective-C `setApplication`, which is not part of this model. The hook takes the value as given.
- Builder.NotificationBuilder.SetSound stands for the eight sound setters of src/builder.rs:148-206. Each of them stores one `Sound` value.
- Builder.NotificationBuilder.SetInterruptionLevel stands for the four `as_*` setters of src/builder.rs:260-291.
- Builder.NotificationBuilder.Build has no `schedule` counterpart (src/builder.rs:248-254), because it needs `datetime_to_schedule`.
- src/builder.rs reuses the UserNotifications value types (`Sound`, `Trigger`, `Category`, `Action`) of `UnNotification`. That revision's own notification module is not part of this model.
- Builder.AttachmentBuilder.OverwriteOption takes any predicate. The setters pass "has the same kind", which is the closure each setter builds in the source.
- UnBuilder.DateTimeToSchedule: chrono's local-time formatting and cron parsing are replaced by the date's fields taken directly.
- UnBuilder.NotificationBuilder.Interval: the panic of `assert!` is a `Failure` result that leaves the builder unchanged.
- UUID generation is the parameter `freshId`, with one id per attachment or action in `attachmentIds`/`actionIds`.
- The `cfg` target switches are the `Target` parameter.
- src/un/mod.rs is not part of this model: it holds completion-handler channels, which are concurrency plumbing. Its version gates follow the `AppleOs` pattern.
- src/un/bind.rs, src/un/delegate.rs, src/main.rs, src/util.rs, src/utilities.rs, src/error.rs, build.rs and the examples are not part of this model. They hold extern declarations, demos, filesystem probes, error definitions and build configuration.

## Findings

| source | as written | input that shows it | evidently intended | confidence | as-written member | corrected member |
|---|---|---|---|---|---|---|
| src/un/notification.rs:843-845 | the day of the month is passed to `setMonth`, overwriting the month, and `setDay` is never called | cron `* * * 1 Dec * 2019`: components year 2019, month 1 | `setDay(day)`: year 2019, month 12, day 1 | high, not executed | UnNotification.AsWrittenComponents (shown by UnNotification.FirstOfDecemberBecomesJanuary, UnNotification.DayOfMonthOverwritesMonth and, for every schedule, UnNotification.ComponentsFromUnits) | UnNotification.CalendarComponents (equal to UnNotification.IntendedComponents, used by UnNotification.TriggerToNative) |
