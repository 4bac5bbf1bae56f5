# Nico invitation page — a Dafny model of its page logic

The page (`JavaScript/nico.js`) is an online event invitation. It has a
countdown, a highlighted navigation bar, an image lightbox, background audio
started by the "open invite" button, and animated balloon and sparkle layers.
Almost all of the script wires DOM elements to browser events. This project
models the parts of it that carry logic. Each part is a pure function or a
small immutable record with transition functions:

- `Decimal`: `Number.prototype.toString()` for non-negative integers and
  `String.prototype.padStart(2, "0")`. It comes with a parser (`Value`) so
  that the rendered text can be read back.
- `Countdown`: `updateCountdown`. The milliseconds left are clamped at zero
  and split into days, hours, minutes and seconds, then rendered. The target
  instant and "now" are integer millisecond timestamps passed in as
  parameters.
- `Nav`: `setActiveNav` and the section observer's callback that calls it.
- `Lightbox`: the lightbox's `open`, `close` and Escape-key handlers, over the
  record `{isOpen, ariaHidden, modalOpen, imageSrc}`.
- `InviteAudio`: the `hasStarted`/`isStarting` guard of `startInviteAudio`.
  A call is split at its `await` into `Begin` (the guard and the flag raised
  before `play()`) and `Finish` (the `try`/`catch`/`finally` after `play()`
  settles). How `play()` settles is an input. A reference table over the
  phases `Idle | Starting | Playing` is proved to agree with the two flags.
- `Decorations`: `initBalloons`, `initSparkles` and `handleResize`. Each
  child's random styling is an opaque input: a per-index draw of a type
  parameter `D`.

Two behaviours of the code are worth stating up front:

- Several intersecting entries in one observer callback leave only the last
  one's link active, because each `setActiveNav` call switches the other links
  off (`classList.toggle` with a force argument; `Nav.OnSectionsIntersect`,
  `Nav.LastWins`).
- The `catch` branch of `startInviteAudio` assigns `hasStarted = false`; it is
  never true at that point, since a call only reaches `play()` while
  `hasStarted` is false, so the flag never goes from true to false.

## Model

| member | source | states |
|---|---|---|
| `Decimal.ToDecimal` | JavaScript/nico.js:58 | `days.toString()` is a canonical numeral with no leading zero; it has one digit exactly below ten and two from ten to ninety-nine |
| `Decimal.ToDecimalDenotes` | JavaScript/nico.js:58 | reading `n.toString()` back as a decimal gives `n` |
| `Decimal.CanonicalIsToDecimal` | JavaScript/nico.js:58 | the other direction: every numeral without a superfluous leading zero is what `toString` prints for the number it denotes |
| `Decimal.PadStart` | JavaScript/nico.js:59-61 | `padStart(width, fill)` with a single-character `fill` (the code only uses `"0"`) gives the longer of the input length and `width`, keeps the input as a suffix, and fills the prefix with `fill` |
| `Decimal.TwoDigits` | JavaScript/nico.js:59-61 | `n.toString().padStart(2, "0")` is all digits, at least two of them (exactly two below 100), and still denotes `n` |
| `Countdown.Decompose` | JavaScript/nico.js:50-56 | hours < 24, minutes < 60, seconds < 60; days·86400 + hours·3600 + minutes·60 + seconds equals the whole seconds of `max(target − now, 0)`; all four are zero once `now ≥ target` |
| `Countdown.DecomposeUnique` | JavaScript/nico.js:53-56 | any in-range counters that account for the same whole seconds are the ones computed, so the breakdown is the exact calendar split of the time left |
| `Countdown.CountsDown` | JavaScript/nico.js:50-51 | a later `now` never shows more time left, and once the display reaches zero it stays at zero |
| `Countdown.UpdateCountdown` | JavaScript/nico.js:47-62 | days are printed as a canonical numeral; hours, minutes and seconds are exactly two digits; each slot denotes its counter, so the slots read back the whole seconds left; at or after the target the slots read "0", "00", "00", "00" |
| `Nav.SetActiveNav` | JavaScript/nico.js:64-69 | same number, order and keys of links; link `i` is active iff its key equals `id`, whatever it was before |
| `Nav.NoMatchNoneActive` | JavaScript/nico.js:64-69 | if no key equals `id`, no link is active |
| `Nav.AtMostOneActive` | JavaScript/nico.js:64-69 | with pairwise distinct keys at most one link is active |
| `Nav.LastWins` | JavaScript/nico.js:64-69 | highlighting `a` and then `b` is the same as highlighting `b` alone |
| `Nav.OnSectionsIntersect` | JavaScript/nico.js:93-97 | the observer callback keeps the links' keys and order; it changes nothing when no entry intersects; otherwise exactly the links keyed by the last intersecting entry's id are active |
| `Lightbox.Open` | JavaScript/nico.js:129-135 | a missing or empty `src` changes nothing; otherwise the image takes `src` and the lightbox, `aria-hidden="false"` and `modal-open` all say open |
| `Lightbox.Close` | JavaScript/nico.js:137-141 | the result is closed, `aria-hidden="true"`, no `modal-open`; the image source is kept |
| `Lightbox.KeyDown` | JavaScript/nico.js:149-153 | Escape closes; any other key changes nothing |
| `Lightbox.CloseIdempotent` | JavaScript/nico.js:137-141 | closing twice is closing once |
| `Lightbox.EscapeWhenClosed` | JavaScript/nico.js:149-153 | Escape on an already-closed lightbox changes nothing |
| `Lightbox.OpenThenClose` | JavaScript/nico.js:129-141 | opening then closing a closed lightbox restores it, apart from the image source it now holds |
| `Lightbox.HandlersKeepConsistent` | JavaScript/nico.js:129-153 | open, close and Escape keep `isOpen`, `aria-hidden` and `modal-open` in agreement |
| `InviteAudio.Begin` | JavaScript/nico.js:157-158 | playback is requested iff neither flag is set; if not requested, nothing changes; if requested, `isStarting` is raised |
| `InviteAudio.Finish` | JavaScript/nico.js:194-198 | after `play()` settles, `isStarting` is clear, and `hasStarted` holds iff `play()` resolved |
| `InviteAudio.FlagsOf` | JavaScript/nico.js:12-15 | each phase `Idle`/`Starting`/`Playing` has a reachable flag encoding that maps back to it |
| `InviteAudio.BeginFollowsTable` | JavaScript/nico.js:157-158 | on reachable flags, `Begin` moves only `Idle` to `Starting`, and it requests playback exactly from `Idle` |
| `InviteAudio.FinishFollowsTable` | JavaScript/nico.js:194-198 | a start in flight settles to `Playing` on success and back to `Idle` on rejection |
| `InviteAudio.RetryAfterFailure` | JavaScript/nico.js:157-198 | after a rejected start, the next gesture requests playback again |
| `InviteAudio.NoRestartAfterSuccess` | JavaScript/nico.js:157-198 | after a successful start, a gesture requests no playback and changes no flag |
| `InviteAudio.Step` | JavaScript/nico.js:156-200 | one page event: a gesture (a call of `startInviteAudio`) changes the flags exactly as `Begin` and adds one `play()` call iff `Begin` requests playback; a settlement of the pending `play()` applies `Finish` and counts one settled call (and one resolved call on success) exactly when a start is in flight, and otherwise changes nothing |
| `InviteAudio.Run` | JavaScript/nico.js:156-200 | a sequence of events only adds to the counts, with at most one `play()` call and one settlement per event |
| `InviteAudio.StepKeepsAccounted` | JavaScript/nico.js:156-200 | a gesture or a settlement keeps the flags reachable, keeps every `play()` call but the one in flight settled, allows at most one resolved call, adds at most one call, and does nothing at all once playback has started |
| `InviteAudio.RunKeepsAccounted` | JavaScript/nico.js:156-200 | over any interleaving of gestures and settlements the same bookkeeping holds, so at most one `play()` is in flight; from a started session no event changes anything |
| `InviteAudio.NoPlayAfterResolve` | JavaScript/nico.js:156-200 | from load, under any interleaving: at most one `play()` in flight, at most one ever resolves, and after one has resolved no later event calls `play()` or changes anything |
| `InviteAudio.RunFromIdle` | JavaScript/nico.js:156-200 | for gestures whose `play()` settles before the next gesture: `play()` is called up to and including the first call that resolves and never after; playback is started at the end iff some attempt resolved; no start is left in flight |
| `Decorations.InitBalloons` | JavaScript/nico.js:202-228 | the layer is replaced by exactly 8 balloons below width 640 and 14 otherwise; balloon `i` has colour `palette[i % 3]` and draw `i` |
| `Decorations.InitSparkles` | JavaScript/nico.js:230-252 | the layer is replaced by exactly 46 sparkles below width 640 and 78 otherwise; sparkle `i` has draw `i` |
| `Decorations.RegenerationReplaces` | JavaScript/nico.js:202-252 | regenerating a layer gives the same children whatever it held before: old children are discarded, not appended to |
| `Decorations.HandleResize` | JavaScript/nico.js:254-257 | after a resize, a narrow viewport has 8 balloons and 46 sparkles and a wide one 14 and 78, whatever the layers held before |
| `Decorations.PaletteCycles` | JavaScript/nico.js:205-217 | balloon colours repeat with period three, neighbours never share a colour, and a layer of three or more shows the whole palette |

## Left out

- Scroll progress bar (`updateProgress`, lines 39-45): floating-point division. The code has only an upper clamp.
- The volume fade-in (lines 185-193): float interpolation driven by `requestAnimationFrame`.
- Seeking past the intro (`applyStartTime`, lines 167-181): depends on browser media state and on host exceptions.
- Random styling values (lines 212-216, 238-242): unseeded `Math.random` floats. Each child carries an opaque draw instead.
- Toast (`showToast`, lines 29-37) and clipboard copy (lines 105-120): timers and a host API, with no logic of their own.
- Reveal observer and observer thresholds/root margins (lines 71-103): host scheduling. Only the section callback's loop over entries is modelled.
- Element lookups, event-listener registration, `setInterval`, smooth scrolling and the open-button handler's class changes (lines 1-25, 143-149, 259-277): DOM wiring.
- The guards for missing DOM elements (`if (!countdownEls.days) return`, `if (!balloonLayer) return`, lines 48, 124, 203, 231): the model assumes the elements exist.
- Countdown.Decompose: uses exact integer division. The source uses `Math.floor` of a floating-point quotient. The two agree for every millisecond difference below 2^43, which covers any real clock against the 2026 target. An invalid `Date` (NaN) is not modelled.
- Countdown.UpdateCountdown: the target is a parameter, not the literal `new Date("2026-02-28T15:00:00")`. That string is parsed in the browser's local time zone.
- Decimal.ToDecimal: models `toString` for integers only. JavaScript switches to exponential notation from 10^21, far beyond any reachable day count.
- Lightbox.Open: `imageSrc` is the attribute text. The browser's resolution of `img.src` to an absolute URL is not modelled.
- Starting lightbox state: the initial `aria-hidden` value comes from the page's markup, so it is a field of the starting record.
- InviteAudio.Step: a settlement that arrives with no start in flight leaves the session unchanged. The page cannot produce such an event, because a `play()` promise exists exactly while `isStarting` is set.
