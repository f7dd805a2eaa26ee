# shadowbeats client logic in Dafny

A model of the client-side logic of the shadowbeats music site. The site is a
React application backed by Firebase. Four pieces are modelled:

- **Preferences provider** (`preferences.dfy`, module `Preferences`). The
  signed-in user's preference record is loaded from that user's document in the
  `users` collection, merged over a fixed default record, and written back with
  a merge-write when the user changes a preference. A record is a
  `map<string, Value>`, so JavaScript's object spread `{...a, ...b}` is map
  union `a + b`. Fields a stored document carries beyond the five preference
  fields (uid, email, bio, the nested `stats` object and the resolved
  `createdAt` that sign-up writes, src/config/firebase.ts:49-63) pass through
  `...data` as in the code. Values the client never inspects, such as `stats`
  and `createdAt`, are the opaque `Other` case of `Value`. `serverTimestamp()`
  is the sentinel value `ServerTimestamp`.
- **Auth provider** (`auth.dfy`, module `Auth`). The listener for
  auth-state notifications is a state transition over `currentUser`,
  `isAuthenticated`, `userProfile`, `error` and `loading`. For a signed-in user
  it fetches the profile document.
- **Music player** (`music_player.dfy`, module `MusicPlayer`). Next and
  previous wrap around the playlist. At the end of a track, repeat wins over
  shuffle and shuffle wins over advancing. The play, mute, shuffle and repeat
  toggles are modelled, and so is `formatTime`, which renders seconds as `m:ss`.
- **Theme switcher** (`theme_switcher.dfy`, module `ThemeSwitcher`). The theme
  shown is found by id with a fallback to the first option. Hovering sets a
  preview and leaving clears it. A click previews a theme and asks the
  preferences provider to save it.

The remote services are in `firebase.dfy` (module `Firebase`). A user is an
opaque uid. The `users` collection is a class `Store` holding a map of documents
and a log of every call made on it. Whether a read or a write fails is a
boolean parameter: it is the service's answer, which the client does not
control. Each remote call is made once, and its error is passed back
unchanged. No retry, backoff, error classification or write-sequence token
exists in the code, so none is modelled. The error value carries no payload
because every caller only logs it.

React state becomes class fields and event handlers become methods. The current
user, the remote outcomes and the captured player flags are explicit
parameters. Handlers run one after another.

Behaviour of the code that the model keeps, and that a reader might not expect:
- Updates are not optimistic. The local copy changes only after the merge-write
  succeeds, and on failure it is left as it was.
- When the write of the defaults for a new user fails, the local preferences
  stay as they were (`null` on first load) and the error is set. The local
  defaults are not kept.
- An error, once set, is never cleared by the preferences provider.
- `loading` is never set back to true when the signed-in user changes.

## Model

| member | source | states |
|---|---|---|
| `Firebase.MergeInto` | src/contexts/PreferencesContext.tsx:102 | a merge-write keeps every stored field it does not supply and takes the supplied ones |
| `Firebase.Store.Get` | src/config/firebase.ts:89-99 | a read returns the stored document, or none when the document does not exist, or the error; it never changes the store |
| `Firebase.Store.Set` | src/contexts/PreferencesContext.tsx:102 | a plain write (line 77) replaces the document and a merge-write merges into it; a failed write stores nothing; every call is logged |
| `Preferences.Stamped` | src/contexts/PreferencesContext.tsx:66-70 | spread semantics: the overriding record's fields win, the base's other fields are kept, and lastLogin is always the fresh stamp |
| `Preferences.LoadedPreferences` | src/contexts/PreferencesContext.tsx:64-70 | every field of the stored document overrides the default, every default it lacks keeps the value from lines 23-29, and lastLogin is the fresh stamp |
| `Preferences.NewUserPreferences` | src/contexts/PreferencesContext.tsx:73-76 | a new user's record is exactly the defaults with lastLogin stamped |
| `Preferences.UpdatedPreferences` | src/contexts/PreferencesContext.tsx:96-100 | current ⊕ partial ⊕ fresh lastLogin: supplied fields take the new values, every other current field is unchanged, and null preferences contribute nothing |
| `Preferences.SuccessiveUpdates` | src/contexts/PreferencesContext.tsx:96-103 | two successful updates in a row equal one update carrying both partial records, the later winning |
| `Preferences.Provider.constructor` | src/contexts/PreferencesContext.tsx:48-50 | the initial state has no preferences, loading true and no error |
| `Preferences.Provider.LoadPreferences` | src/contexts/PreferencesContext.tsx:54-85 | with no user: preferences null and no store call. With a stored document: preferences are that document merged over the defaults. With no document: exactly one plain write of the defaults, then the local assignment. Any failure keeps preferences and sets 'Failed to load preferences'. Loading ends false on every path, and an error is never cleared |
| `Preferences.Provider.UpdatePreferences` | src/contexts/PreferencesContext.tsx:92-107 | a no-op without a user. Otherwise exactly one merge-write of the updated record. On success preferences become that record, the user's document becomes the record merged into it (or the record itself when there was none), every other document is unchanged, and the stored document then agrees with the local copy on every field but lastLogin. On failure preferences and documents are unchanged and the error is 'Failed to update preferences' |
| `Auth.Provider.constructor` | src/contexts/AuthContext.tsx:30-34 | no user, no profile, no error, loading true, not authenticated, children not rendered |
| `Auth.Provider.OnAuthStateChanged` | src/contexts/AuthContext.tsx:38-59 | currentUser is the notified user and isAuthenticated holds exactly when there is one. Sign-out clears the profile, fetches nothing and keeps the error. A successful fetch sets the profile to the document (null when there is none, src/config/firebase.ts:92-95) and clears the error. A failed fetch sets 'Failed to load user profile' and a null profile. Loading ends false, so children render (line 75), and the invariant Valid is kept |
| `MusicPlayer.NextIndex` | src/components/MusicPlayer.tsx:105 | the next index is i+1, or 0 after the last song, and stays in [0, n) |
| `MusicPlayer.PreviousIndex` | src/components/MusicPlayer.tsx:99 | the previous index is i-1, or n-1 before the first song, and stays in [0, n) |
| `MusicPlayer.PreviousAfterNext` | src/components/MusicPlayer.tsx:99-105 | previous after next returns to the original index |
| `MusicPlayer.NextAfterPrevious` | src/components/MusicPlayer.tsx:99-105 | next after previous returns to the original index |
| `MusicPlayer.NextTimesMoves` | src/components/MusicPlayer.tsx:104-108 | pressing next k times from i lands on (i+k) mod n |
| `MusicPlayer.NextCycles` | src/components/MusicPlayer.tsx:104-108 | n presses of next come back to the starting song |
| `MusicPlayer.Player.constructor` | src/components/MusicPlayer.tsx:13-20 | first song, paused, volume 0.8, not muted, no repeat, no shuffle; a mounted engine gets the volume |
| `MusicPlayer.Player.TogglePlay` | src/components/MusicPlayer.tsx:87-96 | with an engine, isPlaying flips and the engine plays or pauses to match; without one nothing changes |
| `MusicPlayer.Player.Previous` | src/components/MusicPlayer.tsx:98-102 | the index becomes the previous index, isPlaying is true, nothing else changes |
| `MusicPlayer.Player.Next` | src/components/MusicPlayer.tsx:104-108 | the index becomes the next index, isPlaying is true, nothing else changes |
| `MusicPlayer.Player.ToggleMute` | src/components/MusicPlayer.tsx:110-115 | with an engine, isMuted flips, the engine outputs 0 when muting and the chosen volume when unmuting, and the chosen volume is unchanged; without one nothing changes |
| `MusicPlayer.Player.ToggleShuffle` | src/components/MusicPlayer.tsx:156 | the shuffle flag flips and nothing else changes |
| `MusicPlayer.Player.ToggleRepeat` | src/components/MusicPlayer.tsx:162 | the repeat flag flips and nothing else changes |
| `MusicPlayer.ToggleTwice` | src/components/MusicPlayer.tsx:156-162 | toggling shuffle twice and repeat twice restores both flags |
| `MusicPlayer.Player.OnFinish` | src/components/MusicPlayer.tsx:65-75 | the finished track has stopped the engine. Repeat keeps the index and plays the engine again. Otherwise the engine stays stopped, and shuffle moves to some index in [0, n) or else the index advances as for next. isPlaying and the other fields are unchanged |
| `MusicPlayer.NatToString` | src/components/MusicPlayer.tsx:120 | decimal digits only, one digit below 10 and two below 100 |
| `MusicPlayer.IntToString` | src/components/MusicPlayer.tsx:120 | a whole number ≥ 0 is written as decimal digits that denote it; a negative one as a minus sign followed by digits that denote its absolute value |
| `MusicPlayer.PadStart2` | src/components/MusicPlayer.tsx:120 | the string ends with the original, is at least two long, and is padded with zeros only |
| `MusicPlayer.JsRem` | src/components/MusicPlayer.tsx:119 | JavaScript's `%`: the remainder has the dividend's sign, is below the divisor in size, and differs from the dividend by a multiple of it |
| `MusicPlayer.NatToStringReadsBack` | src/components/MusicPlayer.tsx:120 | the digits written for n denote n |
| `MusicPlayer.LeadingZero` | src/components/MusicPlayer.tsx:120 | a padding zero does not change the number the digits denote |
| `MusicPlayer.PaddedSeconds` | src/components/MusicPlayer.tsx:119-120 | a seconds value below 60 is written as exactly two digits that denote it |
| `MusicPlayer.FormatTime` | src/components/MusicPlayer.tsx:117-121 | for whole t ≥ 0, formatTime reads back as m:ss with m = floor(t/60) and ss = t mod 60 written in exactly two digits |
| `ThemeSwitcher.FindTheme` | src/components/ThemeSwitcher.tsx:42 | `find` returns the first option whose id is the key, or nothing when no option has it |
| `ThemeSwitcher.ThemeIdsDistinct` | src/components/ThemeSwitcher.tsx:9-40 | the three theme ids are distinct |
| `ThemeSwitcher.CurrentTheme` | src/components/ThemeSwitcher.tsx:42 | the shown theme is a listed option: the one the preview or else the saved theme names, else the first |
| `ThemeSwitcher.Highlighted` | src/components/ThemeSwitcher.tsx:69-78 | the highlighted option is the one whose id equals the saved theme, if any; the preview plays no part |
| `ThemeSwitcher.UnknownIdFallsBack` | src/components/ThemeSwitcher.tsx:9-42 | a saved theme whose id is not in the list (such as 'dark', allowed by src/config/firebase.ts:158) highlights no option, and without a preview the first option, 'cyberpunk', is shown |
| `ThemeSwitcher.WithoutPreviewShowsHighlighted` | src/components/ThemeSwitcher.tsx:42-69 | with no preview the shown theme is the highlighted option, or the first when none is highlighted |
| `ThemeSwitcher.ThemeRequest` | src/components/ThemeSwitcher.tsx:64 | a click's update request holds the theme field and nothing else |
| `ThemeSwitcher.SavedClickIsShown` | src/components/ThemeSwitcher.tsx:62-69 | once a click's update has been saved, the chosen option is highlighted and still shown after the preview is cleared |
| `ThemeSwitcher.Switcher.constructor` | src/components/ThemeSwitcher.tsx:7 | there is no preview at first |
| `ThemeSwitcher.Switcher.Hover` | src/components/ThemeSwitcher.tsx:66 | hovering sets the preview to the option's id |
| `ThemeSwitcher.Switcher.Leave` | src/components/ThemeSwitcher.tsx:67 | leaving clears the preview, so the saved theme (or the first option) shows |
| `ThemeSwitcher.Switcher.Click` | src/components/ThemeSwitcher.tsx:62-65 | a click sets the preview to the id and makes exactly the provider's update with a record holding only the theme: on success the preferences and the user's stored document take it; on failure preferences and documents are unchanged and the error is 'Failed to update preferences'; without a user nothing is sent |

## Left out

- Firebase SDK calls (`getDoc`, `setDoc`, `updateDoc`, `addDoc`, `getDocs`, sign-in, sign-up, sign-out, profile updates in src/config/firebase.ts) are not modelled one by one. The store is an abstract keyed map whose reads and writes may fail, and the server's timestamp is an opaque sentinel.
- Firebase.MergeInto: Firestore's merge-write merges nested objects field by field, while the model replaces a top-level field whole. `updatePreferences` sends back the whole loaded record, so a nested field such as `stats` (an opaque `Other` value here) is written back whole, not merged key by key.
- Preferences.Provider.UpdatePreferences: the store keeps the `ServerTimestamp` sentinel where Firestore stores the time the server resolves, so the stored `lastLogin` is not compared with the local copy; the agreement is stated for every other field.
- Console logging of errors is left out.
- React scheduling is left out. Handlers run one after another with the current state. In the code, `updatePreferences` reads the preferences captured at render time, and two overlapping loads or auth notifications can interleave at their `await`s.
- MusicPlayer.Player.OnFinish: repeat and shuffle are parameters standing for the flags the handler captured when the track was loaded (src/components/MusicPlayer.tsx:81). The shuffle pick is any index in range, not `Math.floor(Math.random() * n)`. After a finish without repeat the engine has stopped while isPlaying stays true, as the code leaves it.
- The waveform library is left out: creating, loading and destroying an instance, its event wiring, and its duration and current time. The model's engine is one instance that keeps its state across track changes. The code builds a new instance on every track change.
- The volume slider (`parseFloat`, src/components/MusicPlayer.tsx:212) and the effect that passes the volume to the engine when it changes are left out. The volume is an exact `real`, set to 0.8 at mount and copied by the mute toggle.
- MusicPlayer.FormatTime: times are whole seconds. The code also renders fractional times; for t ≥ 0 those give the same text as their floor. Negative times are modelled with JavaScript's truncating `%` but nothing is proved about them.
- The theme options' icons and the rest of the markup are left out; the options keep their ids, names and style classes.
- The canvas background animation, the sign-in and sign-up forms, the pages and the purely presentational components are not part of this model.
