# Sanjeevani (warriorai) — a verified Dafny model of its logic

Sanjeevani is a React web app for emergency health help in India. Its most
algorithmic piece is a camera-based heart-rate monitor (remote
photoplethysmography, rPPG) in `src/hooks/useRppg.ts`. The hook does four
things:

- On each animation frame it averages the green channel of skin-coloured
  pixels in a face region.
- It keeps those averages, with their timestamps, in a pair of capped FIFO
  buffers, throttled to the sample rate.
- It detrends the signal with a moving average. The source calls this
  `bandpassFilter`.
- It estimates beats per minute from zero crossings, and a 0–100 signal
  quality from the variance.

Around it sit smaller pieces of logic, all modelled here:

- the ABHA (Ayushman Bharat Health Account) ID linking dialog, with its
  validators, step machine and OTP resend countdown;
- the AI chat page, with its send guard and its line parser for the
  streamed (server-sent events) reply;
- the dashboard, with its realtime SOS-alert list updaters, the mapping
  between the health profile and its edit form, and the respond-button rule;
- the four-step warrior registration wizard;
- the SOS select/confirm/activate flow;
- the heart-rate page's display rules;
- the dashboard header's initials;
- the count of new patient alerts.

One Dafny module per source file:

| file | module | source |
|---|---|---|
| `wrappers.dfy` | `Wrappers` | `Option` (stands for `null`/`undefined`) |
| `js_strings.dfy` | `JsStrings` | JavaScript's `trim`, `split` on one character, `join`, `indexOf`, `\d` |
| `rppg_signal.dfy` | `RppgSignal` | `useRppg.ts`: extractor, detrend, zero crossings, estimator |
| `rppg_session.dfy` | `RppgSession` | `useRppg.ts`: class `RppgEngine` with the buffers, throttle clock and published state |
| `rppg_monitor.dfy` | `RppgMonitor` | `RppgMonitor.tsx` |
| `abha_linking.dfy` | `AbhaLinking` | `AbhaLinkingDialog.tsx`, class `AbhaDialog` |
| `ai_assistant.dfy` | `AiAssistant` | `AiAssistant.tsx`, class `ChatSession` |
| `dashboard.dfy` | `Dashboard` | `Dashboard.tsx`, class `DashboardState` |
| `warrior_registration.dfy` | `WarriorRegistration` | `WarriorRegistrationForm.tsx`, class `RegistrationWizard` |
| `sos_section.dfy` | `SosSection` | `SOSSection.tsx`, class `SosPanel` |
| `dashboard_header.dfy` | `DashboardHeader` | `DashboardHeader.tsx` |
| `notifications_panel.dfy` | `NotificationsPanel` | `NotificationsPanel.tsx` |

Code that mutates state in place is written as classes with `modifies`
clauses:

- the hook's refs;
- the React state of the dialogs, pages and sections;
- the loops of the extractor, the filter, the crossing counter and the
  stream reader.

Each method is proved against a pure function that specifies it. The
properties are proved about those functions.

Modelling conventions:

- Samples and times are exact `real`s.
- `Math.round(x)` is `Floor(x + 1/2)`.
- `Math.sqrt` is a function parameter about which nothing is assumed.
- The clock (`performance.now()`), the region's RGBA bytes and the outcome
  of the camera request are parameters of the engine's methods.
- JSON decoding of a stream payload is a parameter `parse` that returns the
  optional `choices[0].delta.content`.
- The translation function is not modelled: labels appear as their keys.

The engine's lifecycle as coded:

- `startCamera` has no guard against a second call while a stream is held.
  Every call requests the camera again; `cameraRequests` counts the
  requests.
- A second successful start overwrites the stream reference and the frame
  reference without releasing either. `stopCamera` then cancels only the
  callback the frame reference holds and stops only the stream the stream
  reference holds. One frame chain keeps running until a second stop, and
  the first stream is never stopped. `liveStreams` and `frameLoops` count
  what is still running.
- When playback fails after the stream is obtained, the stream stays held
  and no frame chain starts.
- A failed start publishes the error but leaves the buffers as they were:
  the reset runs only after the stream is granted.
- `stopCamera` does not reset the throttle clock `lastProcessTime`.
- A start still waiting for the camera is not cancelled by a stop.

Behaviour of the code that the model keeps on purpose:

- The detrend window `[max(0, i-w), min(n, i+w))` is asymmetric: it reaches
  `w` samples back but only `w-1` forward. Its radius must be at least 1.
- An estimate is published once the buffers hold `3 * sampleRate` samples.
  When that is below the estimator's 64-sample minimum, a heart rate of 0 is
  published and shown as "0".
- In the chat stream, a `[DONE]` line ends only the inner line loop. Lines
  buffered after it stay in the buffer and are handled with the next chunk.
- A trailing comma in a list field saves an empty item.

## Model

| member | source | states |
|---|---|---|
| RppgSignal.RegionOfInterest | src/hooks/useRppg.ts:40-43 | the region starts at 30%/20% of the frame, is 40% of each side, rounded down, and always lies inside the frame |
| RppgSignal.IsSkin | src/hooks/useRppg.ts:50 | a skin pixel has green above 40 and blue between 20 and red; red equal to blue is never skin |
| RppgSignal.MeanSkinGreen | src/hooks/useRppg.ts:46-54 | the extractor's value is 0 or lies in (40, 255] |
| RppgSignal.SkinGreenSumBounds | src/hooks/useRppg.ts:50-51 | every counted pixel adds a green value in (40, 255], so the green sum is between 41 and 255 times the count |
| RppgSignal.SkinCountPositive | src/hooks/useRppg.ts:48-53 | the skin count is positive iff some scanned pixel passes the skin test |
| RppgSignal.MeanSkinGreenRange | src/hooks/useRppg.ts:46-54 | the extractor returns a positive value iff some visited pixel is skin, and a positive value lies in (40, 255] |
| RppgSignal.BlackFrameYieldsNoSample | src/hooks/useRppg.ts:50-54 | an all-zero region gives 0, so the frame adds no sample |
| RppgSignal.ExtractGreenChannel | src/hooks/useRppg.ts:39-55 | the stride-4 loop computes the mean green of the skin pixels (0 when there are none) |
| RppgSignal.WindowContainsSample | src/hooks/useRppg.ts:63-64 | the averaging window around any sample contains it iff the radius is at least 1; otherwise it is empty |
| RppgSignal.Detrended | src/hooks/useRppg.ts:58-69 | the detrended signal has the input's length |
| RppgSignal.BandpassFilter | src/hooks/useRppg.ts:57-70 | the nested loops return the input below 4 samples and otherwise each sample minus the mean of its window |
| RppgSignal.WindowSum | src/hooks/useRppg.ts:65-66 | the inner loop leaves in `sum` the sum of the samples in [start, end) |
| RppgSignal.DetrendIgnoresOffset | src/hooks/useRppg.ts:62-68 | adding a constant to every sample leaves the detrended output unchanged (from 4 samples on) |
| RppgSignal.CrossesIffSignsDiffer | src/hooks/useRppg.ts:80 | a pair counts as a crossing iff exactly one value is negative; zero counts as non-negative |
| RppgSignal.CrossingsUpTo | src/hooks/useRppg.ts:78-81 | at most one crossing per adjacent pair, so at most n-1 |
| RppgSignal.ZeroCrossings | src/hooks/useRppg.ts:78-81 | the crossing count of a signal of n samples is at most max(0, n-1) |
| RppgSignal.CountZeroCrossings | src/hooks/useRppg.ts:78-81 | the counting loop returns the number of sign-changing pairs, at most n-1 |
| RppgSignal.LongGapEmptiesWindow | src/hooks/useRppg.ts:72-89 | as written, 91 samples over 183 s give window radius 0, an empty window around every sample, and the published estimate {minHeartRate, NaN} |
| RppgSignal.FilterRate | src/hooks/useRppg.ts:76-77 | the corrected rate always gives a radius of at least 1, and equals the derived rate whenever that rate already does |
| RppgSignal.ActualRate | src/hooks/useRppg.ts:76 | n/duration is positive for a positive sample count |
| RppgSignal.EstimateOf | src/hooks/useRppg.ts:72-89 | with the corrected filter rate: below 64 samples exactly {0, 0}; quality always in [0, 100] |
| RppgSignal.WindowMeanAsWritten | src/hooks/useRppg.ts:63-67 | as written, the window mean is NaN exactly when the radius is 0, and otherwise the mean of the window |
| RppgSignal.DetrendedAsWritten | src/hooks/useRppg.ts:57-70 | as written: below 4 samples or with radius >= 1 the output is the detrended signal; from 4 samples with radius 0 every output is NaN |
| RppgSignal.CrossesAsWrittenOnNumbers | src/hooks/useRppg.ts:80 | on numbers the crossing test is the real one; a NaN on either side is never a crossing |
| RppgSignal.CrossingsAsWrittenFinite | src/hooks/useRppg.ts:78-81 | with no NaN the counting loop counts what the real test counts |
| RppgSignal.CrossingsAsWrittenNaN | src/hooks/useRppg.ts:78-81 | an all-NaN signal has no crossing |
| RppgSignal.QualityAsWritten | src/hooks/useRppg.ts:84-86 | the quality is NaN exactly when some filtered value is NaN |
| RppgSignal.EstimateOfAsWritten | src/hooks/useRppg.ts:72-89 | as written: below 64 samples exactly {0, 0}; a numeric quality lies in [0, 100] |
| RppgSignal.AsWrittenAgreesWhenWindowNonEmpty | src/hooks/useRppg.ts:72-89 | below 64 samples, or whenever floor(2·n/duration) >= 1, the as-written estimator returns the corrected estimate with a numeric quality |
| RppgSignal.LongGapPublishesFloorAndNaN | src/hooks/useRppg.ts:72-89 | as written, 64+ samples spanning more than 2n seconds give radius 0, NaN quality and hr = round(clamp(0)), i.e. minHeartRate for 0 <= min <= max |
| RppgSignal.RateBelowHalf | src/hooks/useRppg.ts:76-77 | a rate below 0.5 samples per second floors to radius 0 |
| RppgSignal.Quality | src/hooks/useRppg.ts:84-86 | the quality score lies in [0, 100] whatever `sqrt` returns |
| RppgSignal.RoundBetween | src/hooks/useRppg.ts:87-88 | clamping to integer bounds lo <= hi and rounding gives an integer in [lo, hi] |
| RppgSignal.EstimateInRange | src/hooks/useRppg.ts:72-89 | with the corrected filter rate: fewer than 64 samples give exactly {0, 0}; otherwise the heart rate lies in [minHeartRate, maxHeartRate]; quality always lies in [0, 100] whatever sqrt returns; with a positive minimum, hr is 0 iff there were fewer than 64 samples |
| RppgSignal.EstimateHeartRate | src/hooks/useRppg.ts:72-89 | with the corrected filter rate, the estimator's steps compute the specified estimate |
| RppgSession.PushCappedKeepsNewest | src/hooks/useRppg.ts:109-115 | one push-then-shift keeps the length at min(old+1, cap) and keeps the newest elements in order |
| RppgSession.PushAllKeepsNewest | src/hooks/useRppg.ts:109-115 | after any number of insertions the buffer holds the last cap elements of everything inserted, in insertion order |
| RppgSession.FifoAfterOverflow | src/hooks/useRppg.ts:111-115 | cap+5 insertions into an empty buffer leave exactly cap elements, the sixth-inserted first |
| RppgSession.PublishedEstimateInRange | src/hooks/useRppg.ts:116-118 | every published estimate has quality in [0, 100] and a heart rate in the configured bounds, and it is 0 only when 3*sampleRate < 64; with the corrected filter rate |
| RppgSession.DefaultConfigPublishesInRange | src/hooks/useRppg.ts:17-22 | the defaults 30/10/40/180 are a valid configuration that publishes from 90 samples (at least 64) into 300-sample buffers, so a published heart rate is in [40, 180] and never 0 |
| RppgSession.RppgEngine.constructor | src/hooks/useRppg.ts:27-37 | empty buffers, throttle clock 0, state {null, 0, false, null}, no stream and no frame chain |
| RppgSession.RppgEngine.ProcessFrame | src/hooks/useRppg.ts:100-121 | with the corrected filter rate: a frame is taken only after a full frame interval; a positive value is pushed with its timestamp, capped FIFO; an estimate is published from 3*sampleRate samples; the invariant (paired buffers within the cap, samples in (40, 255], strictly increasing timestamps, published state in range) is kept; it runs only from a running frame chain, which it reschedules, and leaves streams and chain count unchanged |
| RppgSession.RppgEngine.SkipFrame | src/hooks/useRppg.ts:94-99 | a callback on an unready video only reschedules its chain |
| RppgSession.RppgEngine.StartCamera | src/hooks/useRppg.ts:125-140 | every call requests the camera; an obtained stream is one more live stream and replaces the stream reference; on success the buffers are emptied, the clock is zeroed, processing starts and one more frame chain runs; on failure the error is published and processing stops, with the buffers and chains untouched |
| RppgSession.RppgEngine.StopCamera | src/hooks/useRppg.ts:142-149 | buffers emptied, state exactly {null, 0, false, null}; only the referenced frame chain ends and only the referenced stream is stopped, one of each at most; both references cleared; throttle clock unchanged |
| RppgSession.DoubleStartLeaksStream | src/hooks/useRppg.ts:131-144 | two successful starts and a stop leave one chain and one stream running; a second stop ends the chain but the first stream stays live |
| RppgMonitor.ColorAndLabelAgree | src/pages/RppgMonitor.tsx:18-28 | the colour and the label always name the same band: good iff quality >= 70, poor iff quality < 40 |
| RppgMonitor.QualityColor | src/pages/RppgMonitor.tsx:18-22 | one of three classes: success iff quality >= 70, destructive iff quality < 40 |
| RppgMonitor.QualityLabelKey | src/pages/RppgMonitor.tsx:24-28 | one of three keys: good iff quality >= 70, poor iff quality < 40 |
| RppgMonitor.BandsMonotone | src/pages/RppgMonitor.tsx:18-28 | raising the quality never moves the colour or the label to a worse band |
| RppgMonitor.NatToString | src/pages/RppgMonitor.tsx:119 | the rendered number is a non-empty digit string without a leading zero |
| RppgMonitor.NatToStringValue | src/pages/RppgMonitor.tsx:119 | the rendered digits read back as the number |
| RppgMonitor.HeartRateText | src/pages/RppgMonitor.tsx:117-124 | the heart-rate text is never empty, and is all digits for an estimate |
| RppgMonitor.AnimationPeriod | src/pages/RppgMonitor.tsx:111 | no estimate gives a 1 s period; a positive estimate a positive period |
| RppgMonitor.DashesIffNoEstimate | src/pages/RppgMonitor.tsx:117-124 | "--" shows iff there is no estimate; an estimate of 0 shows "0" |
| RppgMonitor.AnimationMatchesHeartRate | src/pages/RppgMonitor.tsx:111 | null and 0 both give a 1 s period; otherwise period × bpm = 60, so 40–200 bpm gives 0.3–1.5 s |
| RppgMonitor.ControlsFollowProcessing | src/pages/RppgMonitor.tsx:81-124 | Stop shows iff processing, Start iff not; the heart pulses only while processing; after Stop (the idle state) the page shows "--", a Start button and no pulse; a failed start keeps the shown estimate |
| AbhaLinking.ValidateAbhaId | src/components/AbhaLinkingDialog.tsx:33-37 | an accepted ID has length 14 or 17 and holds only digits and dashes |
| AbhaLinking.FormattedFromGroups | src/components/AbhaLinkingDialog.tsx:35 | any digit groups of lengths 2, 4, 4, 4 joined by dashes are accepted |
| AbhaLinking.FormattedSplitsIntoGroups | src/components/AbhaLinkingDialog.tsx:35 | every dashed ID is such a join of four digit groups |
| AbhaLinking.ValidateMobile | src/components/AbhaLinkingDialog.tsx:39 | an accepted number has 10 characters and is its own trim |
| AbhaLinking.OnlyDigits | src/components/AbhaLinkingDialog.tsx:155 | removing non-digits gives only digits, is no longer than the input, and leaves digit strings unchanged |
| AbhaLinking.FilterMobileInput | src/components/AbhaLinkingDialog.tsx:155 | the stored mobile number is the first min(10, #digits) digits of the input |
| AbhaLinking.FilterMobileInputIdempotent | src/components/AbhaLinkingDialog.tsx:155 | filtering twice equals filtering once |
| AbhaLinking.TimerTick | src/components/AbhaLinkingDialog.tsx:44-47 | a tick never goes negative, decrements a positive value, and maps anything else to 0 |
| AbhaLinking.TicksCountDown | src/components/AbhaLinkingDialog.tsx:41-49 | after k ticks from t >= 0 the timer is max(0, t-k) |
| AbhaLinking.ResendCountdownTakes30Ticks | src/components/AbhaLinkingDialog.tsx:41-49 | from 30, the countdown is still positive after fewer than 30 ticks and is 0 from the 30th on |
| AbhaLinking.AbhaDialog.constructor | src/components/AbhaLinkingDialog.tsx:25-31 | closed dialog, step abha, empty fields, not loading, timer 0, nothing pending |
| AbhaLinking.AbhaDialog.ResetForm | src/components/AbhaLinkingDialog.tsx:91 | step abha, empty fields, timer 0; nothing else changes (loading, pending delays and intervals are kept) |
| AbhaLinking.AbhaDialog.HandleOpenChange | src/components/AbhaLinkingDialog.tsx:92 | closing resets the form; opening changes nothing else |
| AbhaLinking.AbhaDialog.EnterAbhaId | src/components/AbhaLinkingDialog.tsx:130 | the ID field takes the typed value |
| AbhaLinking.AbhaDialog.EnterMobile | src/components/AbhaLinkingDialog.tsx:155 | the mobile field takes the filtered input, so it always holds at most 10 digits |
| AbhaLinking.AbhaDialog.EnterOtp | src/components/AbhaLinkingDialog.tsx:172 | the OTP field takes the entered value |
| AbhaLinking.AbhaDialog.HandleAbhaSubmit | src/components/AbhaLinkingDialog.tsx:51-55 | empty trimmed ID and invalid ID are reported in that order; the step moves to mobile only when the ID is accepted |
| AbhaLinking.AbhaDialog.HandleSendOtp | src/components/AbhaLinkingDialog.tsx:57-61 | empty and invalid numbers are reported in that order; only a valid number sets loading and starts the delay |
| AbhaLinking.AbhaDialog.OtpSent | src/components/AbhaLinkingDialog.tsx:62-64 | after the delay, without checking again: loading ends, the step becomes otp, the timer 30, and one more interval runs |
| AbhaLinking.AbhaDialog.TickResendTimer | src/components/AbhaLinkingDialog.tsx:43-48 | one firing of a running interval applies one tick, and the interval clears itself when it saw 1 or less; a positive timer always has an interval running |
| AbhaLinking.AbhaDialog.HandleResendOtp | src/components/AbhaLinkingDialog.tsx:68-71 | a resend starts iff the timer is 0: it sets loading and starts the delay; otherwise nothing changes |
| AbhaLinking.AbhaDialog.OtpResent | src/components/AbhaLinkingDialog.tsx:72-73 | after the delay: loading ends, the timer is 30 and one more interval runs |
| AbhaLinking.AbhaDialog.HandleVerifyOtp | src/components/AbhaLinkingDialog.tsx:77-80 | the delay starts iff the OTP has exactly 6 characters, and then loading is set |
| AbhaLinking.AbhaDialog.OtpVerified | src/components/AbhaLinkingDialog.tsx:81-88 | after the delay: loading ends, the step becomes success and one completion is scheduled |
| AbhaLinking.AbhaDialog.CompleteLinking | src/components/AbhaLinkingDialog.tsx:77-92 | a scheduled completion calls onLinkSuccess once, closes the dialog and resets the form, whatever happened since it was scheduled (closing or resetting does not cancel it) |
| AbhaLinking.AbhaDialog.GoBack | src/components/AbhaLinkingDialog.tsx:93 | mobile goes to abha, otp goes to mobile, every other step is unchanged |
| AbhaLinking.ResetFieldsFailChecks | src/components/AbhaLinkingDialog.tsx:33-39 | the emptied ABHA ID and mobile number pass neither validator |
| AbhaLinking.CloseDuringSendReachesOtp | src/components/AbhaLinkingDialog.tsx:57-96 | closing the dialog during the send delay resets the form, and the continuation still moves it to the otp step with empty ID and number and a running countdown |
| AbhaLinking.CloseDuringVerifyReachesSuccess | src/components/AbhaLinkingDialog.tsx:77-96 | closing during the verify delay still reaches the success step, with an empty OTP, and schedules the completion |
| AbhaLinking.BackAndSendRunsTwoIntervals | src/components/AbhaLinkingDialog.tsx:41-93 | Back from the otp step while the countdown runs, then Send OTP again, leaves at least two intervals ticking the one timer |
| AiAssistant.LastN | src/pages/AiAssistant.tsx:47 | for n >= 1, the last min(n, length) messages, a suffix of the list |
| AiAssistant.UpsertReplacesOrAppends | src/pages/AiAssistant.tsx:75-81 | the updater replaces the last message iff it is an assistant message after the request's messages, else appends one; the list ends with the new content and keeps the rest |
| AiAssistant.OnlyDataLinesAct | src/pages/AiAssistant.tsx:66-67 | a line that is not skipped starts with "data: " |
| AiAssistant.CarriageReturnIgnored | src/pages/AiAssistant.tsx:66 | a line ending in "\r" is handled exactly like the line without it |
| AiAssistant.DataLineDecodes | src/pages/AiAssistant.tsx:67-72 | "data: " + payload yields the payload's decoded delta, or is skipped when decoding fails |
| AiAssistant.DrainOneLine | src/pages/AiAssistant.tsx:63-65 | one iteration removes exactly the buffer's prefix through the first "\n" |
| AiAssistant.DrainConsumesWholeLines | src/pages/AiAssistant.tsx:62-69 | what stays buffered is a suffix that follows a "\n" (or the whole buffer); unless "[DONE]" stopped the loop, it holds no "\n" |
| AiAssistant.DrainAppendsDeltas | src/pages/AiAssistant.tsx:70-82 | the reply text grows by the deltas of the consumed lines, in order; skipped and undecodable lines add nothing |
| AiAssistant.UpsertKeepsOneReply | src/pages/AiAssistant.tsx:75-81 | a delta creates the reply on the first content and afterwards replaces its content, never adding a second reply |
| AiAssistant.DrainKeepsOneReply | src/pages/AiAssistant.tsx:57-85 | over a whole chunk the request keeps its messages and has at most one assistant reply, holding the full text |
| AiAssistant.ClassifyDoneLine | src/pages/AiAssistant.tsx:68-69 | "data: [DONE]" stops the line loop |
| AiAssistant.DoneLeavesRestBuffered | src/pages/AiAssistant.tsx:57-69 | after "[DONE]" the rest of the buffer stays unread for the next chunk |
| AiAssistant.TypingIndicatorUntilFirstDelta | src/pages/AiAssistant.tsx:131 | while a request streams, the typing indicator shows iff no content has arrived |
| AiAssistant.ChatSession.constructor | src/pages/AiAssistant.tsx:14-18 | the chat starts with the greeting, empty input, not loading |
| AiAssistant.ChatSession.EnterInput | src/pages/AiAssistant.tsx:147 | the input takes the typed value |
| AiAssistant.ChatSession.SendMessage | src/pages/AiAssistant.tsx:28-47 | blank input or a request in flight changes nothing; otherwise the trimmed user message is appended, the input cleared, loading set, and the last 10 messages sent |
| AiAssistant.ChatSession.ReceiveChunk | src/pages/AiAssistant.tsx:57-60 | a chunk is appended to the buffer and the line loop run over it; the request's messages are kept |
| AiAssistant.ChatSession.DrainBuffer | src/pages/AiAssistant.tsx:62-84 | the loop computes the specified drain and keeps one reply per request |
| AiAssistant.ChatSession.FinishRequest | src/pages/AiAssistant.tsx:91-95 | a failure appends the fixed apology; loading always ends |
| Dashboard.OnInsert | src/pages/Dashboard.tsx:39-40 | an INSERT adds the alert first, length +1, the rest in order |
| Dashboard.OnUpdate | src/pages/Dashboard.tsx:46-47 | an UPDATE keeps the length and replaces exactly the alerts with the updated id |
| Dashboard.UpdateKeepsIds | src/pages/Dashboard.tsx:47 | an UPDATE keeps every position's id |
| Dashboard.UpdateIdempotent | src/pages/Dashboard.tsx:47 | receiving the same UPDATE twice equals receiving it once |
| Dashboard.RespondedAlertLosesButton | src/pages/Dashboard.tsx:244 | after an UPDATE to a non-active status, the respond button shows on an alert iff it showed before and the alert is not the updated one |
| Dashboard.ShowRespondButton | src/pages/Dashboard.tsx:244 | the button shows only on an active alert, and never on the signed-in user's own alert |
| Dashboard.TextForm | src/pages/Dashboard.tsx:65-67 | a missing text column fills its field with "", a present one verbatim |
| Dashboard.TextPayload | src/pages/Dashboard.tsx:81-83 | an empty text field is saved as null, any other verbatim |
| Dashboard.ListPayload | src/pages/Dashboard.tsx:84-86 | an empty list field is saved as null; otherwise one trimmed, comma-free item per comma-separated piece |
| Dashboard.TrimEach | src/pages/Dashboard.tsx:84 | each piece is trimmed, in place |
| Dashboard.TextRoundTrip | src/pages/Dashboard.tsx:65-83 | loading then saving a text column keeps it, except that "" comes back null |
| Dashboard.ListRoundTrip | src/pages/Dashboard.tsx:68-86 | loading then saving trimmed, comma-free items gives them back, or null when their join is empty |
| Dashboard.ListRoundTripNull | src/pages/Dashboard.tsx:68 | a null list column is saved as null again |
| Dashboard.TrailingCommaGivesEmptyItem | src/pages/Dashboard.tsx:84 | "Peanuts, " is saved as ["Peanuts", ""] |
| Dashboard.LoadSaveRoundTrip | src/pages/Dashboard.tsx:62-86 | an unedited load-then-save writes the profile back with empty values as null, when list items are trimmed, comma-free and non-empty |
| Dashboard.SaveRequestFor | src/pages/Dashboard.tsx:89-91 | the save is an update iff a profile was loaded, an insert otherwise, and always carries the form's payload |
| Dashboard.WithField | src/pages/Dashboard.tsx:188-208 | an edit changes the named field only |
| Dashboard.DashboardState.constructor | src/pages/Dashboard.tsx:19-31 | no profile, no alerts, loading, not saving, empty form |
| Dashboard.DashboardState.HandleInsert | src/pages/Dashboard.tsx:39-40 | the list becomes the INSERT update of the old list |
| Dashboard.DashboardState.HandleUpdate | src/pages/Dashboard.tsx:46-47 | the list becomes the UPDATE update of the old list |
| Dashboard.DashboardState.FetchData | src/pages/Dashboard.tsx:56-75 | a found profile is stored and fills the form; a missing one changes neither; the alerts become the query rows or []; loading ends |
| Dashboard.DashboardState.EditField | src/pages/Dashboard.tsx:188-208 | the form takes the edit of one field |
| Dashboard.DashboardState.SaveHealthProfile | src/pages/Dashboard.tsx:77-100 | sends the update-or-insert request for the form, refetches iff the server reported no error, and ends not saving |
| WarriorRegistration.NextStepOf | src/components/WarriorRegistrationForm.tsx:43 | advances only below step 4 |
| WarriorRegistration.PrevStepOf | src/components/WarriorRegistrationForm.tsx:44 | goes back only above step 1 |
| WarriorRegistration.ProgressIsQuarter | src/components/WarriorRegistrationForm.tsx:31 | progress is 25 × step, one of 25, 50, 75, 100 |
| WarriorRegistration.Progress | src/components/WarriorRegistrationForm.tsx:31 | progress lies in (0, 100] on steps 1..4 and is 100 exactly at the last step |
| WarriorRegistration.RunStaysInRange | src/components/WarriorRegistrationForm.tsx:22-44 | no sequence of Next/Previous presses leaves steps 1..4 |
| WarriorRegistration.ThreeNextsReachLast | src/components/WarriorRegistrationForm.tsx:43 | three Next presses reach step 4 and a fourth stays there |
| WarriorRegistration.ButtonsMatchMoves | src/components/WarriorRegistrationForm.tsx:208-215 | Previous is disabled iff it would not move; Submit replaces Next iff Next would not move, i.e. at step 4 |
| WarriorRegistration.RegistrationWizard.constructor | src/components/WarriorRegistrationForm.tsx:22-28 | step 1 and the initial form |
| WarriorRegistration.RegistrationWizard.NextStep | src/components/WarriorRegistrationForm.tsx:43 | the step advances as specified and stays in 1..4 |
| WarriorRegistration.RegistrationWizard.PrevStep | src/components/WarriorRegistrationForm.tsx:44 | the step goes back as specified and stays in 1..4 |
| WarriorRegistration.RegistrationWizard.HandleInputChange | src/components/WarriorRegistrationForm.tsx:33-36 | the named field takes the value; every other field is unchanged |
| WarriorRegistration.RegistrationWizard.HandleFileChange | src/components/WarriorRegistrationForm.tsx:38-41 | the field takes the chosen file; with no file nothing changes |
| SosSection.TypeIdsDistinct | src/components/SOSSection.tsx:15-20 | each card's id is one of the four, and distinct cards carry distinct ids |
| SosSection.SelectionEnablesActivate | src/components/SOSSection.tsx:53 | a selected card enables the activate button |
| SosSection.SosPanel.constructor | src/components/SOSSection.tsx:11-13 | nothing selected, no overlay, not activated, no confirmation pending |
| SosSection.SosPanel.SelectType | src/components/SOSSection.tsx:41 | the selection becomes the clicked card's id |
| SosSection.SosPanel.HandleSos | src/components/SOSSection.tsx:22 | the overlay opens iff a type is selected |
| SosSection.SosPanel.CompleteSlide | src/components/SlideToConfirm.tsx:24-31 | a completed slide schedules one confirmation |
| SosSection.SosPanel.HandleConfirmEmergency | src/components/SOSSection.tsx:23 | a scheduled confirmation closes the overlay and activates the alert, whether or not the overlay was still open |
| SosSection.SosPanel.HandleCancelSlide | src/components/SOSSection.tsx:24 | only the overlay closes |
| SosSection.SosPanel.CancelActivation | src/components/SOSSection.tsx:91 | activation ends and the selected type is kept |
| SosSection.CancelAfterSlideStillActivates | src/components/SlideToConfirm.tsx:24-31 | a Cancel clicked between a completed slide and its confirmation closes the overlay, and the alert is activated all the same |
| DashboardHeader.FirstChar | src/components/dashboard/DashboardHeader.tsx:27 | an empty piece contributes nothing, any other its first character |
| DashboardHeader.NonEmptyPieces | src/components/dashboard/DashboardHeader.tsx:27 | the pieces with a first character, never more than all pieces |
| DashboardHeader.Initials | src/components/dashboard/DashboardHeader.tsx:27 | one initial per non-empty space-separated piece, so no more initials than pieces |
| DashboardHeader.InitialsAreFirstChars | src/components/dashboard/DashboardHeader.tsx:27 | the initials are the first characters of the non-empty pieces, one each, in order, so they number at most the pieces |
| DashboardHeader.InitialsHaveNoSpace | src/components/dashboard/DashboardHeader.tsx:27 | no initial is a space |
| DashboardHeader.TwoWordInitials | src/components/dashboard/DashboardHeader.tsx:27 | two space-free words separated by one space give their two first letters |
| DashboardHeader.ExtraSpacesAddNothing | src/components/dashboard/DashboardHeader.tsx:27 | leading, doubled and trailing spaces give the same initials as a single space |
| DashboardHeader.BundledWarriorInitials | src/components/dashboard/DashboardHeader.tsx:27 | "Arjun Singh" shows "AS" |
| NotificationsPanel.NewOnes | src/components/dashboard/NotificationsPanel.tsx:6 | the filter keeps only new notifications from the list, never more than the list |
| NotificationsPanel.NewCount | src/components/dashboard/NotificationsPanel.tsx:6 | 0 <= newCount <= number of notifications |
| NotificationsPanel.NewCountCountsNew | src/components/dashboard/NotificationsPanel.tsx:6 | newCount equals the number of positions holding a new notification |
| NotificationsPanel.NewCountExtremes | src/components/dashboard/NotificationsPanel.tsx:6 | newCount is 0 iff none is new, and the list's length iff all are |
| NotificationsPanel.BadgeIffSomeNew | src/components/dashboard/NotificationsPanel.tsx:13-17 | the badge shows iff some notification is new |
| NotificationsPanel.CardKeys | src/components/dashboard/NotificationsPanel.tsx:22-24 | one card per notification, keyed by its id, in list order |
| NotificationsPanel.BundledPanel | src/components/dashboard/NotificationsPanel.tsx:6-24 | with the bundled data the badge reads 2 and the cards are keyed 1 to 4 |
| JsStrings.Trim | src/pages/Dashboard.tsx:84 | the trim is trimmed, no longer than the input, empty iff the input is all whitespace, and the identity on trimmed strings |
| JsStrings.Split | src/pages/Dashboard.tsx:84 | at least one piece, none containing the separator, and joining them with it gives the input back |
| JsStrings.SplitJoin | src/components/dashboard/DashboardHeader.tsx:27 | separator-free pieces joined by the separator split back into the same pieces |
| JsStrings.IndexOf | src/pages/AiAssistant.tsx:63 | the index of the first occurrence of the character |

## Left out

- The camera, the video element and the canvas are not modelled. This
  covers `getUserMedia`, `play`, releasing tracks, `drawImage` and
  `getImageData`. The region's RGBA bytes are an input to `ProcessFrame`.
- The frame scheduler itself is not modelled. Each callback of a running
  chain is one call of `ProcessFrame` or `SkipFrame`; `frameLoops` counts
  the chains and `frameRefHeld` says whether the frame reference holds a
  pending callback.
- The merge of caller overrides into the defaults (`useRppg.ts` line 25)
  is not modelled: the engine takes the final configuration. The monitor
  page passes no overrides.
- In the engine and the chat page each handler runs to completion in one
  call. The interleavings this hides are not captured:
  - a stop during a pending camera request;
  - overlapping chat requests.
- In the ABHA dialog and the SOS section the delays and timeouts are
  modelled as pending continuations that may run after any other handler,
  in any order. How long each delay lasts, and so which one fires first,
  is not modelled.
- Floating point is not modelled: IEEE rounding and Infinity. Exact
  reals replace doubles, and `Math.sqrt` is uninterpreted. NaN is modelled
  only where the source produces it, in the as-written estimator
  (`RppgSignal.Num`). A NaN quality would show as "poor"; that is not
  modelled.
- Supabase is not modelled: queries, the realtime channel, and the
  profile and chat inserts (`AiAssistant.tsx` lines 37 and 88-90).
  `fetch`, `ReadableStream`, `TextDecoder` and `JSON.parse` are not
  modelled either. Their results are parameters.
- Toasts, rendering, animations and translations are not modelled. The
  registration wizard's submit handler only raises a toast.
- The dashboard's `triggerSOS` (geolocation plus an insert) is not
  modelled: it is a browser API and a network call.
- The dashboard's `respondToAlert` (a network update) is not modelled for
  the same reason. Its effect arrives as a realtime UPDATE, which is
  modelled.
- Strings are sequences of Dafny characters. UTF-16 surrogate pairs, and
  `n[0]` returning half of one, are not modelled.
- `SosSection.SosPanel.SelectType`: requires that the type cards are on
  screen, which they are only before activation.
- `SosSection.SosPanel.HandleSos`: requires that the activate button is on
  screen, for the same reason.
- `SosSection.SosPanel.CompleteSlide`: requires that the overlay is open,
  since the slider is on it. The drag threshold is not modelled.
- `SosSection.SosPanel.HandleCancelSlide`: requires that the overlay is
  open, since its Cancel button is on it.
- `SosSection.SosPanel.CancelActivation`: requires the activated view.
- `AiAssistant.ChatSession.ReceiveChunk`: requires a request in flight,
  since chunks only arrive then.
- `RppgSignal.EstimateHeartRate`: uses the corrected filter rate (see
  Findings). On 64 or more samples spanning more than 2n seconds the
  source publishes hr = minHeartRate (when 0 <= min <= max) with a NaN
  quality; the model publishes the corrected estimate instead. The
  as-written behaviour is `RppgSignal.EstimateOfAsWritten`.
- `RppgSession.RppgEngine.ProcessFrame`: publishes the corrected estimate,
  for the same reason; on such long-gap buffers the source publishes
  minHeartRate with a NaN quality.
- `RppgSession.RppgEngine.ProcessFrame`: requires a valid configuration
  (positive sample rate and window, 0 < min <= max). This is what the
  defaults 30/10/40/180 satisfy.

## Findings

| source | as written | input that shows it | evidently intended | confidence | as-written member | corrected member |
|---|---|---|---|---|---|---|
| src/hooks/useRppg.ts:76-77 | the filter's rate is n/duration, so the window radius floor(2·n/duration) is 0 once the 64+ buffered samples span more than 2n seconds; every window is then empty, every mean is 0/0, there are no crossings, and the published estimate is {minHeartRate, NaN} | 91 samples whose first and last timestamps are 183 s apart (the face left the region for three minutes mid-session) | the detrend always averages a non-empty window, so the quality is a number in [0, 100] | not executed | RppgSignal.LongGapEmptiesWindow | RppgSignal.FilterRate |
