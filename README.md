# Practice-session rules of a guitar practice tracker, in Dafny

The application records or uploads a practice clip, has a third-party detector estimate its tempo
and beat times, and marks on a timeline the beats whose spacing misses the tempo the player says
they meant to play. Around that it keeps a list of practice goals, times a running practice
session, and signs users in and up. This project models the self-contained rules of those parts:

- **Off-beat rule** (`practice_session_audio.dfy`, module `PracticeAudio`). Beat `i ≥ 1` is off when
  `|(beats[i] − beats[i−1]) − 60/expectedTempo| > 0.1` seconds. The list is empty when no non-zero
  expected tempo is set or there are fewer than two beats. `ComputeOffBeats` is the scan itself, a
  loop proved equal to the specification function `OffBeats`. The lemmas prove that index 0 is
  never flagged, that the membership rule holds in both directions, that a deviation of exactly
  0.1 s is not flagged, and that the list is strictly increasing. The component's state is a
  class. Choosing a new file resets every derived value, and a failed decode leaves it reset.
  Typing an expected tempo recomputes the off-beat list and leaves the beats alone. The class
  invariant `Valid()` says the off-beat list always matches the beats and the expected tempo.
  `DisplayTempo` and the parse of the tempo field are modelled too.
- **Channel merge** (`compute_musical_properties.dfy`, module `MusicalProperties`). A buffer with
  exactly two channels becomes their sample-wise mean. Any other channel count yields a copy of
  channel 0.
- **Timeline** (`timeline.dfy`, module `Timeline`). A zero-duration clip renders nothing. Otherwise
  there is one marker per beat at `t/duration·100` percent, green iff its index is in the off-beat
  list, and a cursor at `currentTime/duration·100` percent.
- **Goals panel** (`goals_panel.dfy`, module `Goals`). In a session it lists the user's goals whose
  id no session goal carries, in the user's order. Adding a goal is validated first (a signed-in
  user, non-blank text) and then prepends the new goal. Moving a goal into the session removes it
  from the list.
- **Session page** (`new_session.dfy`, module `NewSession`). It covers elapsed whole seconds, whole
  minutes saved, the `m : s` display with JavaScript's truncating `%`, the song-title fallback, and
  the guard of "End Session".
- **Sign-in and sign-up forms** (`sign_in.dfy`, `sign_up.dfy`, `auth_outcomes.dfy`). Each form maps
  auth error codes to messages. Sign-in places each message under the email field, under the
  password field, or in a general slot. Both forms track their error and status flags through a
  submission. Sign-up checks the password confirmation.
- **JavaScript string helpers** (`text.dfy`, module `Text`): `trim` (ECMAScript white space and
  line terminators) and case-sensitive `includes`. `wrappers.dfy` holds `Option` for `null`.

Times, tempos and samples are `real`. Instants are integer milliseconds. The Firebase auth and
store calls, `Date.now`, `parseFloat` and audio decoding become parameters that stand for their
outcomes.

Some behaviours of the code that are easy to misread:

- The doc comment above the off-beat effect (`PracticeSessionAudio.tsx:87-89`) describes the rule
  `gap > 60/expectedTempo`. The code at line 102 compares the absolute deviation with 0.1 s, so it
  also flags beats that come early. The model follows the code, and `EarlyBeatFlagged` shows a case.
- The timeline positions are unclamped percentages: a time outside the clip lands outside
  [0, 100].
- Only a buffer with exactly two channels is averaged. A buffer with three or more channels is
  reduced to channel 0.
- `handleFileSelect` keeps no counter of selections, so a slower earlier selection can overwrite
  the results of a later one.

## Model

| member | source | states |
|---|---|---|
| `PracticeAudio.ComputeOffBeats` | src/components/PracticeSessionAudio.tsx:91-108 | the scan returns exactly `OffBeats(beats, expectedTempo)`: empty when no non-zero tempo is set or there are at most one beat, every index in `1 .. |beats|-1`, strictly increasing |
| `PracticeAudio.OffBeatsBelowMembership` | src/components/PracticeSessionAudio.tsx:100-105 | scanning indices below `n` flags `k` iff `1 ≤ k < n` and beat `k` deviates |
| `PracticeAudio.OffBeatsBelowIncreasing` | src/components/PracticeSessionAudio.tsx:98-105 | the scan pushes indices in strictly increasing order, all below `n` |
| `PracticeAudio.OffBeatsSpec` | src/components/PracticeSessionAudio.tsx:92-103 | `k` is an off-beat iff a non-zero expected tempo is set, `1 ≤ k < |beats|` and `|gap(k) − 60/tempo| > 0.1`; index 0 is never flagged |
| `PracticeAudio.OffBeatsIncreasing` | src/components/PracticeSessionAudio.tsx:98-105 | the off-beat list is strictly increasing, hence free of duplicates |
| `PracticeAudio.ToleranceBoundary` | src/components/PracticeSessionAudio.tsx:102 | at 120 BPM a gap of 0.6 s (deviation exactly 0.1) is not flagged, a gap of 0.65 s is |
| `PracticeAudio.EarlyBeatFlagged` | src/components/PracticeSessionAudio.tsx:86-102 | a gap of 0.3 s at 120 BPM is flagged although it is not longer than 60/120, unlike the rule the doc comment describes |
| `PracticeAudio.DisplayTempo` | src/components/PracticeSessionAudio.tsx:123-126 | "N/A" iff the tempo is null or ""; otherwise the text ends in " BPM" and what precedes it is the tempo |
| `PracticeAudio.ParseExpectedTempo` | src/components/PracticeSessionAudio.tsx:192-195 | a NaN parse stores no expected tempo; a number is stored as it is |
| `PracticeAudio.UnparsedTempoFlagsNothing` | src/components/PracticeSessionAudio.tsx:192-195 | after an entry that parses to NaN no beat is flagged, whatever the beats |
| `PracticeAudio.PracticeSessionAudio.constructor` | src/components/PracticeSessionAudio.tsx:10-16 | initial state: no URL, no tempo, no beats or off-beats, no expected tempo, duration and time 0 |
| `PracticeAudio.PracticeSessionAudio.OffBeatEffect` | src/components/PracticeSessionAudio.tsx:91-108 | the effect stores `OffBeats(beats, expectedTempo)` and so restores `Valid()` |
| `PracticeAudio.PracticeSessionAudio.HandleFileSelect` | src/components/PracticeSessionAudio.tsx:29-69 | new URL; tempo, beats, off-beats, expected tempo, duration and time reset; the decoded duration and the detected tempo and beats are taken when they exist, the reset values stay otherwise |
| `PracticeAudio.PracticeSessionAudio.HandleExpectedTempoInput` | src/components/PracticeSessionAudio.tsx:192-195 | stores the parsed tempo and recomputes the off-beats; beats, tempo and duration unchanged |
| `PracticeAudio.PracticeSessionAudio.HandleTimeUpdate` | src/components/PracticeSessionAudio.tsx:114-116 | the playback time is stored |
| `MusicalProperties.MergeChannels` | src/utils/computeMusicalProperties.ts:5-16 | output length is channel 0's; with two channels each sample is `(ch1[i] + ch2[i]) / 2`; otherwise a copy of channel 0 |
| `MusicalProperties.IdenticalChannels` | src/utils/computeMusicalProperties.ts:12 | two identical channels mix to that channel, the same as a mono buffer |
| `MusicalProperties.SwapChannels` | src/utils/computeMusicalProperties.ts:12 | swapping the two channels gives the same mix |
| `MusicalProperties.MixBetween` | src/utils/computeMusicalProperties.ts:12 | each mixed sample lies between its two inputs, so inputs in [-1, 1] give outputs in [-1, 1] |
| `MusicalProperties.ExtraChannelsIgnored` | src/utils/computeMusicalProperties.ts:14-16 | with a channel count other than 2, channels other than 0 do not affect the output |
| `Timeline.Render` | src/components/Timeline.tsx:17-58 | nothing iff duration is 0; otherwise one marker per beat, in beat order, keyed by its index, green iff the index is in `offBeats` |
| `Timeline.Percent` | src/components/Timeline.tsx:34 | the offset `p` in percent satisfies `p · duration = 100 · t`, so it scales the time to the clip |
| `Timeline.MarkerColor` | src/components/Timeline.tsx:35-36 | green iff the index is in `offBeats`, red iff it is not |
| `Timeline.RenderPositions` | src/components/Timeline.tsx:33-58 | marker `i` sits at `beats[i]/duration·100`, the cursor at `currentTime/duration·100` |
| `Timeline.PercentInRange` | src/components/Timeline.tsx:34 | a time within a positive duration lands within [0, 100] percent |
| `Timeline.PercentMonotone` | src/components/Timeline.tsx:33-34 | later times sit further right |
| `Timeline.PercentRoundTrip` | src/components/Timeline.tsx:34 | `percent / 100 · duration` gives the time back |
| `Timeline.InRange` | src/components/Timeline.tsx:35 | keeps exactly the off-beat entries that name a beat |
| `Timeline.OutOfRangeOffBeatsIgnored` | src/components/Timeline.tsx:33-36 | off-beat entries outside `[0, |beats|)` change nothing rendered |
| `Timeline.GreenMarksDeviatingBeats` | src/components/Timeline.tsx:35-36 | with the component's off-beat list, marker `i` is green iff `i ≥ 1`, a tempo is set and beat `i` deviates by more than 0.1 s |
| `Goals.Filter` | src/components/GoalsPanel.tsx:38-40 | `filter` keeps exactly the elements that pass and never grows the list |
| `Goals.FilterAppend` | src/components/GoalsPanel.tsx:38-40 | `filter` preserves order: filtering a concatenation concatenates the filtered parts |
| `Goals.AvailableGoals` | src/components/GoalsPanel.tsx:38-40 | exactly the user goals whose id no session goal carries; never more goals than the user has |
| `Goals.GoalsToShow` | src/components/GoalsPanel.tsx:34-45 | outside a session all user goals as they are; in a session exactly the user goals whose id no session goal has |
| `Goals.AvailableGoalsKeepsOrder` | src/components/GoalsPanel.tsx:38-40 | the session filter keeps the user's order |
| `Goals.RemoveById` | src/components/GoalsPanel.tsx:127 | no goal with the id remains; every goal with another id does |
| `Goals.RemoveByIdKeepsOrder` | src/components/GoalsPanel.tsx:127 | removal keeps the remaining goals in order |
| `Goals.RemoveAgreesWithRefetch` | src/components/GoalsPanel.tsx:125-127 | removing a goal just added to the session gives the list the session filter computes for the session goals with that goal appended, assuming session goals carry their goal's id |
| `Goals.LinkedGoalStaysListed` | src/components/GoalsPanel.tsx:73-84 | in a session the added goal is linked and still listed first, although the session filter leaves out a goal the session carries |
| `Goals.NewGoal` | src/components/GoalsPanel.tsx:77-83 | the added goal has the store's id, the trimmed text, duration "0", the user's id and the creation time |
| `Goals.GoalsPanel.constructor` | src/components/GoalsPanel.tsx:22-26 | no goals, empty input, loading, not adding, no error |
| `Goals.GoalsPanel.FetchGoals` | src/components/GoalsPanel.tsx:29-57 | with a user and both fetches answered, the goals to show are stored; a failed fetch sets "Failed to fetch goals."; loading ends in every case |
| `Goals.GoalsPanel.HandleAddGoal` | src/components/GoalsPanel.tsx:60-92 | no user: "User is not authenticated.", nothing else changes; blank text: "Goal cannot be empty.", nothing else changes; success: one goal prepended, the old list after it, input cleared, no error; store failure: "Failed to add goal.", list and input kept; `adding` ends false |
| `Goals.GoalsPanel.HandleAddToSession` | src/components/GoalsPanel.tsx:120-131 | on success the goal's id is removed from the list, others kept in order; on failure "Failed to add goal to session." |
| `NewSession.ElapsedSeconds` | src/app/dashboard/new-session/page.tsx:43-48 | the floor of the elapsed milliseconds over 1000: `1000·r ≤ now − start < 1000·(r+1)` |
| `NewSession.ElapsedMonotone` | src/app/dashboard/new-session/page.tsx:47-50 | a later clock reading never gives fewer elapsed seconds |
| `NewSession.TotalMinutes` | src/app/dashboard/new-session/page.tsx:72 | the floor of the elapsed seconds over 60: `60·r ≤ e < 60·(r+1)` |
| `NewSession.JsRemainder60` | src/app/dashboard/new-session/page.tsx:104 | JavaScript's `e % 60`: differs from `e` by a multiple of 60, in `[0, 60)` for `e ≥ 0` and in `(-60, 0]` for `e < 0` |
| `NewSession.ElapsedDisplay` | src/app/dashboard/new-session/page.tsx:104 | the minutes are the floor of the seconds over 60; the seconds part differs from the count by a multiple of 60 and lies in (-60, 60) |
| `NewSession.DisplayRecombines` | src/app/dashboard/new-session/page.tsx:104 | for `e ≥ 0` the shown minutes and seconds satisfy `60·m + s = e` and `0 ≤ s < 60` |
| `NewSession.NegativeDisplayMismatch` | src/app/dashboard/new-session/page.tsx:104 | −5 s is shown as "-1m : -5s", and those two parts do not recombine to −5 |
| `NewSession.FinalSong` | src/app/dashboard/new-session/page.tsx:75 | a title of only whitespace falls back to the stored song; any other title is saved trimmed and non-empty |
| `NewSession.EndSessionUpdate` | src/app/dashboard/new-session/page.tsx:66-80 | no update iff the session id, the loaded session's id or the user is missing; otherwise the whole minutes and the final song |
| `NewSession.NewSessionPage.constructor` | src/app/dashboard/new-session/page.tsx:20-24 | no session, zero seconds, timer stopped |
| `NewSession.NewSessionPage.LoadSession` | src/app/dashboard/new-session/page.tsx:26-51 | without a session id or a user, or with no document found, nothing changes; otherwise the document is kept under the page's id, the counter starts at the seconds since its start, the timer runs |
| `NewSession.NewSessionPage.Tick` | src/app/dashboard/new-session/page.tsx:47-50 | the counter is recomputed from the start; it does not decrease when the clock has not gone back |
| `NewSession.NewSessionPage.EndSession` | src/app/dashboard/new-session/page.tsx:66-90 | the update sent is `EndSessionUpdate(...)`; the timer stops once the store accepts it |
| `Text.Trim` | src/components/GoalsPanel.tsx:65 | `trim` leaves neither end as whitespace |
| `Text.TrimMargins` | src/components/GoalsPanel.tsx:65 | `trim` returns a slice of its input and what it drops on either side is whitespace |
| `Text.TrimUnique` | src/components/GoalsPanel.tsx:72 | for any split into whitespace, a trimmed core and whitespace, `trim` returns that core |
| `Text.TrimEmptyIffBlank` | src/components/GoalsPanel.tsx:65 | `trim()` is "" iff the text is only whitespace |
| `Text.TrimIdempotent` | src/components/GoalsPanel.tsx:72-79 | trimming twice equals trimming once, so the repeated `trim()` calls agree |
| `Text.MissingCharNotIncluded` | src/components/SignIn.tsx:65 | `includes` fails when the word has a character the text lacks |
| `SignInForm.ErrorMessage` | src/components/SignIn.tsx:28-40 | each of the three known codes maps to its own message, and exactly those codes do; every other code gets the generic message |
| `SignInForm.ShownAtEmail` | src/components/SignIn.tsx:65 | shown under the email field only when the error is set and long enough to contain "email" |
| `SignInForm.ShownAtPassword` | src/components/SignIn.tsx:84 | shown under the password field only when the error is set and long enough to contain "password" |
| `SignInForm.ShownGeneral` | src/components/SignIn.tsx:90 | the general slot shows exactly the set errors that neither field shows |
| `SignInForm.UserNotFoundAtEmail` | src/components/SignIn.tsx:65 | "No user found with this email." shows under the email field and not under the password field |
| `SignInForm.InvalidEmailAtEmail` | src/components/SignIn.tsx:65 | "Invalid email address." shows under the email field and not under the password field |
| `SignInForm.WrongPasswordAtPassword` | src/components/SignIn.tsx:84 | "Incorrect password." shows under the password field and not under the email field |
| `SignInForm.UnexpectedErrorGeneral` | src/components/SignIn.tsx:90 | the generic message shows in the general slot |
| `SignInForm.ExactlyOneSlot` | src/components/SignIn.tsx:65-90 | every message the mapping can produce is shown in exactly one of the three slots |
| `SignInForm.SignIn.constructor` | src/components/SignIn.tsx:12-15 | empty fields, no error, not loading |
| `SignInForm.SignIn.BeginSubmit` | src/components/SignIn.tsx:20-21 | the error is cleared and loading is on while the attempt runs |
| `SignInForm.SignIn.FinishSubmit` | src/components/SignIn.tsx:23-43 | success navigates to the dashboard; failure shows the code's message; loading ends either way |
| `SignInForm.SignIn.HandleSubmit` | src/components/SignIn.tsx:18-44 | after a submission loading is off and the fields are kept; success leaves no error and navigates; failure leaves exactly the mapped message and does not navigate |
| `SignUpForm.ErrorMessage` | src/components/SignUp.tsx:31-43 | each of the three known codes maps to its own message, and exactly those codes do; every other code gets the generic message |
| `SignUpForm.MismatchIsNotAnAuthError` | src/components/SignUp.tsx:19-43 | no auth error code produces the password-mismatch message |
| `SignUpForm.SignUp.constructor` | src/components/SignUp.tsx:8-12 | empty fields and no messages |
| `SignUpForm.SignUp.HandleSubmit` | src/components/SignUp.tsx:14-45 | both messages cleared; differing passwords: "Passwords do not match." and no creation attempted; success: the success message and all three fields emptied; failure: the mapped message; never an error and a success together |

## Left out

- The tempo and beat detector (`music-tempo`) is a third-party library whose source is not part of this model. Its tempo string and beat times are inputs, so nothing about onset envelopes, tempo estimation or beat tracking is modelled or proved.
- Browser audio: reading the file, `decodeAudioData`, Blob URLs and their revocation, and the `AudioContext` lifecycle. Their results are the `Analysis` parameter of `HandleFileSelect`.
- `HandleFileSelect`: it is modelled as one atomic step. The interleaving of overlapping selections across their `await`s is not modelled, and the code has no guard against it.
- Floating point: times, tempos and samples are exact reals. IEEE rounding, the Float32 channel data, `NaN` and `Infinity` (for example a typed tempo of "Infinity") are not modelled. The 0.1 s boundary is exact.
- `parseFloat`, `Date`, `Date.now` and `setInterval` are parameters: a parsed number or NaN, and instants in milliseconds.
- Firebase auth, the document store, `useAuth` and routing are outcome parameters. The remote writes themselves and the navigation are not modelled, apart from the `redirected` flag of the sign-in form.
- `Goals.RemoveAgreesWithRefetch` assumes that a goal embedded in a session keeps the id of the goal it was made from. The store functions as written save goals without their id, so goals fetched back from a session carry no id, and the filter at `GoalsPanel.tsx:38-40` then excludes nothing after a reload.
- React's scheduling: each handler is one step. Stale `goals` captured by a render's closures are not modelled; the model always uses the current list.
- Rendering details: CSS, markup, the record/upload mode switch, loading texts and the `toFixed(2)` labels.
- `MusicalProperties.MergeChannels` requires all channels to have the same length and at least one channel. An audio buffer always has that shape; a shorter second channel, which would yield NaN samples in JavaScript, is not modelled.
