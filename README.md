# Artist portfolio: the logic behind the pages, in Dafny

This project models the parts of the artist-portfolio web site that hold logic, and proves properties of them:

- **The booking endpoint** (`POST /api/booking`). It validates a JSON body against the booking schema, answers bots with a fake success (a honeypot field, and a minimum delay after the `startedAt` the form stamps on its first submit click), rate-limits per client address, checks the mail configuration and sends one notification e-mail. Every request gets exactly one `{ok, message|error}` envelope, with status 200, 400, 429 or 500.
- **The booking form.** A four-state machine (`idle`, `sending`, `success`, `error`). It builds a trimmed payload, stamps `startedAt` on the first submit, and turns the server's reply into the next state.
- **The SoundCloud carousel.** A window of 1, 2 or 4 cards over the items, with wrap-around next and previous steps. An `animating` lock is released by the slide's `transitionend` or, after a wrap snap, by a 60 ms timer.
- **The two hero titles** (image and video). The title is split into words and every letter gets a global index that leaves one slot per space. The module also covers `clamp` and the hover dimming and tilt.
- **The biography gallery.** An index advanced modulo `steps` by an interval that pauses on hover, plus zero-padded progress labels.
- **The header and the footer.**
  - `cx` (class-list building) and `isActivePath` (trailing-slash-insensitive matching).
  - The mobile menu's `open` flag and the body-scroll lock it holds while open.
  - The footer's back-to-top button, refreshed once per animation frame.
- **The sitemap.** One entry per public route under a configurable base URL.

## Files and modules

- `text.dfy`: the `Wrappers` module (`Option`) and the `Text` module. `Text` holds JavaScript's `trim`, `join`, one-character `split` and `split(c)[0]`, on `seq<char>`, with the whitespace set of ECMAScript's `trim`.
- `arith.dfy`: the `Modular` module, facts about `%` used by the two wrap-around counters.
- `booking_route.dfy`: the `BookingRoute` module. `POST` is a total function of the request and of everything external: the clock, the environment, the rate limiter's verdict and how the mail call settles. Its `Outcome` records the response, the rate-limit query made (if any) and the e-mail handed to the provider (if any).
- `booking_form.dfy`: the `BookingForm` module. The `Form` class holds the component state. The end of the file connects the form's payload and reply handling to `BookingRoute`.
- `soundcloud_carousel.dfy`: the `SoundcloudCarousel` module, with the index arithmetic as functions and the `Carousel` class for the component state.
- `hero_title.dfy`: the `HeroTitle` module. `components/HeroCinematic.tsx` and `components/VideoHero.tsx` contain the same `clamp`, `wordLetters`, hover and tilt code, and one module models both. The table cites the image hero. In the video hero the same code is at `clamp` 6-8, `wordLetters` 52-69 (loop 58-62), `onLeave` 86-90, `dimOthers` 191, hover 204-205 and tilt 206.
- `bio_gallery.dfy`: the `BioGallery` module.
- `top_nav.dfy`: the `TopNav` module. `components/NewsletterBlock.tsx` repeats `isActivePath` and `usePathname() || "/"` word for word, and the footer uses the same `TopNav` members.
- `newsletter_block.dfy`: the `NewsletterBlock` module (the footer).
- `sitemap.dfy`: the `Sitemap` module.

## Notes on the source

- **The mail call's result is ignored.** The endpoint does not look at what `resend.emails.send` resolves to. A provider that resolves with an error object still produces the 200 confirmation, and only a thrown exception gives 500 "Unexpected server error.". The model follows the code: `SendVerdict` is `Resolved` or `SendThrew`.
- **`isActivePath` matches slightly more than "equal up to a trailing slash".** A one-character string keeps its slash, so the home link `/` is also active at `//` (`TopNav.HomeActiveOnlyAtRoot`). Only one slash is removed, so `/bio//` is not active for `/bio/` or for `/bio`. `TopNav.IsActivePath` states the exact relation.
- **The first submit of a fresh form is dropped.** The form stamps `startedAt` at the first submit click, not when the form is shown, and posts at once. On that first click the server computes the elapsed time with its own clock against the browser's stamp, so it sees the network latency plus the offset between the two clocks. When the clocks agree this is below 1800 ms in practice (and a browser clock running ahead only makes it smaller, even negative), so the server answers the fake "Thanks!": the form shows success, and no e-mail is sent (`BookingForm.FirstSubmitIsDropped`). A browser clock running more than about 1.8 s behind the server's lets the first submit through. Later submits from the same form carry the earlier stamp.
- **A carousel of up to four items on a narrow screen locks after one step.** The `transitionend` listener is attached by an effect that runs once, after the first render (components/SoundcloudCarousel.tsx:131-139). That render uses four per view, so with four items or fewer it shows the static grid, which has no ref, and no listener is attached. After a resize below 1024 px the track takes the grid's place without a listener: the first non-wrapping step sets `animating` and nothing clears it. The grid and the track are the same element to React, so a list that starts with more than four items keeps its listener through later switches (`SoundcloudCarousel.ReusedTrackKeepsListener`); only an empty list, which renders nothing, removes the element and its listener. `SoundcloudCarousel.NarrowSmallListFreezes` shows this for three items at 500 px. The music page passes five items, so the site's own carousel gets its listener.
- **The back-to-top button never appears under React's strict mode.** The effect's cleanup cancels the pending frame but leaves its id in `rafRef` (components/NewsletterBlock.tsx:71-74). next.config.ts:3 enables `reactStrictMode`, so in development the effect runs, is cleaned up, and runs again on the same refs. The second `handleScroll` sees the stale id and returns, and so does every later scroll (`NewsletterBlock.MountUnmountMount`, `NewsletterBlock.ScrollWhileStuck`).
- **The gallery can show the fallback with images present.** The gallery index is not reset when the image list changes. After a shorter list arrives, `images[index]` can be past the end and the "No images" fallback shows until the next tick brings the index back into range (`BioGallery.Gallery.Current`, `BioGallery.Gallery.SetImages`).

## Model

| member | source | states |
|---|---|---|
| Text.Trim | app/api/booking/route.ts:11-14 | `trim` yields a contiguous piece of the input that neither starts nor ends with ECMAScript whitespace |
| Text.TrimCutsOnlyWhitespace | app/api/booking/route.ts:20 | everything `trim` removes, before and after the result, is whitespace |
| Text.TrimOfTrimmed | components/BookingForm.tsx:12-14 | a string without surrounding whitespace is left unchanged by `trim` |
| Text.TrimIdempotent | components/BookingForm.tsx:12-14 | trimming twice (client, then schema) is trimming once |
| Text.TrimEmptyIffAllWhitespace | app/api/booking/route.ts:40 | `trim` yields `""` exactly when every character is whitespace |
| Text.Split | components/HeroCinematic.tsx:57 | `split(c)` gives at least one piece, no piece contains `c`, and joining the pieces with `c` gives the input back |
| Text.BeforeFirst | app/api/booking/route.ts:20 | `split(",")[0]` is the prefix before the first comma, or the whole string when there is none |
| Text.SplitFirstIsBeforeFirst | app/api/booking/route.ts:20 | the first piece of `split` is that prefix |
| Text.SplitJoin | app/api/booking/route.ts:76-87 | splitting a join undoes it when no part contains the separator |
| Text.Join | components/TopNav.tsx:37 | `join` of no parts is `""`; otherwise the result starts with the first part |
| BookingRoute.ParseBooking | app/api/booking/route.ts:10-16 | a missing or non-object body fails; an accepted submission meets every bound and has all strings trimmed |
| BookingRoute.ParseBookingSpec | app/api/booking/route.ts:10-16 | the schema accepts an object exactly when its fields trim to a conforming submission (absent `company` as `""`, integral `startedAt`), and yields that submission |
| BookingRoute.TrimmedString | app/api/booking/route.ts:11-13 | a field reads as a string exactly when it is present and a JSON string; the text read is trimmed and no longer than the field (the bounds are checked by `ParseBooking`) |
| BookingRoute.Company | app/api/booking/route.ts:14 | an absent `company` reads as `""`; a present one reads as trimmed text |
| BookingRoute.IsHoneypot | app/api/booking/route.ts:40 | defined as: the parsed `company` is non-empty (its consequences are in `HoneypotIsTrimmedCompany` and `PostHoneypotLooksLikeSuccess`) |
| BookingRoute.TooFast | app/api/booking/route.ts:45-46 | defined as: less than 1800 ms have passed since `startedAt` (used by `PostElapsedFloor`) |
| BookingRoute.Configured | app/api/booking/route.ts:65-71 | defined as: the API key, recipient and sender are all present and non-empty (used by `PostNotConfigured`) |
| BookingRoute.RateQueryFor | app/api/booking/route.ts:51-59 | defined as: the query `ip:<address>` under `rl:booking`, 5 per "1 m" (used by `PostElapsedFloor` and `PostLimiterFailure`) |
| BookingRoute.GetIp | app/api/booking/route.ts:18-23 | the address is trimmed; from a non-empty `x-forwarded-for` it is the trimmed text before the first comma; otherwise from a non-empty `x-real-ip` it is that header trimmed; with neither it is `0.0.0.0` |
| BookingRoute.GetIpForwardedIsFirstEntry | app/api/booking/route.ts:19-20 | with a non-empty `x-forwarded-for`, the address is the trimmed first comma-separated entry, found inside the header |
| BookingRoute.EmailLines | app/api/booking/route.ts:76-87 | the notification has ten lines |
| BookingRoute.ComposeEmail | app/api/booking/route.ts:75-95 | from and to come from the configuration, reply-to is the submitter's address, the subject is the fixed prefix followed by the name |
| BookingRoute.EmailTextLines | app/api/booking/route.ts:76-87 | when no field holds a newline, the e-mail text splits back into exactly its ten lines, in order |
| BookingRoute.Post | app/api/booking/route.ts:29-104 | every request gets one of 200/400/429/500; `ok` exactly on 200; 400 exactly when the schema fails; only the listed texts appear; an e-mail is sent only after an allowed rate-limit query for this client and with a complete configuration |
| BookingRoute.PostRejectsInvalidPayload | app/api/booking/route.ts:31-35 | a failing body gets 400 "Invalid payload." with no rate-limit query and no e-mail |
| BookingRoute.PostHoneypotLooksLikeSuccess | app/api/booking/route.ts:39-42 | a filled honeypot gets 200 "Thanks!" with no rate-limit query and no e-mail, whatever the clock, limiter, configuration or provider |
| BookingRoute.HoneypotIsTrimmedCompany | app/api/booking/route.ts:40 | an absent `company` never trips the honeypot; a present one trips it exactly when it holds a non-whitespace character |
| BookingRoute.PostElapsedFloor | app/api/booking/route.ts:44-59 | for a valid non-honeypot body, under 1800 ms after `startedAt` the answer is 200 "Thanks!" with no query and no e-mail; at 1800 ms or more it is never that answer, and unless setting up the limiter throws, the limiter is asked about `ip:<address>` with 5 per "1 m" under `rl:booking`; a setup failure makes no query |
| BookingRoute.PostLimiterFailure | app/api/booking/route.ts:51-63 | an exception from `Redis.fromEnv`/`new Ratelimit` or from `limit` gives 500 "Unexpected server error." and no e-mail; only the latter has made a query |
| BookingRoute.PostRateLimited | app/api/booking/route.ts:50-63 | a denial gives 429 "Too many requests. Try again in a minute." and no e-mail |
| BookingRoute.PostNotConfigured | app/api/booking/route.ts:65-71 | a missing or empty API key, recipient or sender gives 500 "Server is not configured for email sending." and no e-mail |
| BookingRoute.PostSendsExactlyWhenAllowed | app/api/booking/route.ts:73-100 | an e-mail is sent exactly when every gate passes; it is the composed one; the answer is the confirmation unless the send throws (then 500) |
| BookingRoute.BotAnswersAreUniform | app/api/booking/route.ts:39-48 | the honeypot and the too-fast answers are identical outcomes, with status 200 |
| BookingForm.SafeTrim | components/BookingForm.tsx:12-14 | a missing entry becomes `""`; the result is trimmed, no longer than the input, and equal to it when it was already trimmed |
| BookingForm.NextState | components/BookingForm.tsx:53-84 | success exactly for a 2xx reply whose body says `ok: true`; the message is the server's non-empty text or the fixed default; a network failure gives the network error |
| BookingForm.Form.constructor | components/BookingForm.tsx:17-20 | idle, `startedAt` 0, every input empty |
| BookingForm.Form.Edit | components/BookingForm.tsx:31-32 | typing into one of the four inputs changes only that input's text; the set of inputs is unchanged |
| BookingForm.Form.Submit | components/BookingForm.tsx:22-44 | while the button is disabled (sending) a click posts nothing and changes nothing; otherwise `startedAt` is stamped only if still 0, the payload carries the trimmed inputs, and the state is `sending`, which disables the button |
| BookingForm.SubmitOnceInFlight | components/BookingForm.tsx:22-44 | two clicks in a row post one request: the second finds the button disabled |
| BookingForm.Form.Receive | components/BookingForm.tsx:58-84 | the state becomes the reply's verdict; inputs are cleared only on success; `startedAt` is kept |
| BookingForm.FormPayloadMeetsSchema | components/BookingForm.tsx:34-42 | the form's payload passes the schema exactly when the submission conforms, and the server then sees the same strings |
| BookingForm.FormMirrorsEndpoint | components/BookingForm.tsx:53-74 | whatever the endpoint answers, the form shows success with the server's message or error with the server's error |
| BookingForm.FastPayloadSendsNothing | components/BookingForm.tsx:34-42 | a payload posted less than 1800 ms after its `startedAt` never causes an e-mail or a rate-limit query: it is rejected or gets the fake "Thanks!" |
| BookingForm.FillAndSubmit | components/BookingForm.tsx:17-44 | a fresh form, filled in and submitted, posts the trimmed inputs with `startedAt` equal to the click time and is sending |
| BookingForm.FirstSubmitIsDropped | components/BookingForm.tsx:22-44 | on a fresh form's first click, when the server's clock at receipt minus the browser's at the click is under 1800 ms (latency plus clock offset, possibly negative), the server sends no e-mail and, unless the payload is invalid, the form shows success |
| BookingForm.ThanksShownAsSuccess | components/BookingForm.tsx:63-74 | the fake "Thanks!" reply is shown as success |
| SoundcloudCarousel.GetPerView | components/SoundcloudCarousel.tsx:34-42 | 4 without a window; 1 below 640, 2 from 640 to 1023, 4 from 1024 |
| SoundcloudCarousel.MaxIndex | components/SoundcloudCarousel.tsx:68-71 | `max(0, n - perView)`: the last window start that still shows a full window |
| SoundcloudCarousel.ClampIndex | components/SoundcloudCarousel.tsx:74-80 | the index lands in `[0, maxIndex]` and is unchanged when already inside |
| SoundcloudCarousel.NextIndex | components/SoundcloudCarousel.tsx:104-114 | from the last window back to 0, otherwise one on; always within range |
| SoundcloudCarousel.PrevIndex | components/SoundcloudCarousel.tsx:120-128 | from 0 to the last window, otherwise one back; within range from a valid index |
| SoundcloudCarousel.NextPrevInverse | components/SoundcloudCarousel.tsx:99-129 | next then previous, and previous then next, return to the same window |
| SoundcloudCarousel.Iterate | components/SoundcloudCarousel.tsx:99-115 | any number of next steps stays in range |
| SoundcloudCarousel.IterateNextIsRotation | components/SoundcloudCarousel.tsx:99-115 | `k` next steps move `k` places round a cycle of `maxIndex + 1` windows |
| SoundcloudCarousel.Render | components/SoundcloudCarousel.tsx:165-289 | nothing for no items, a static grid with no controls when all fit, otherwise the track with controls enabled exactly when not animating |
| SoundcloudCarousel.Carousel.CanNavigate | components/SoundcloudCarousel.tsx:82 | navigation is possible exactly when the rendered view is the track with its controls enabled |
| SoundcloudCarousel.Carousel.constructor | components/SoundcloudCarousel.tsx:50-52 | four per view, index 0, unlocked; the `transitionend` listener is attached exactly when more than four items make the first render a track (131-139, 167-210) |
| SoundcloudCarousel.Carousel.Resize | components/SoundcloudCarousel.tsx:57-80 | `perView` follows the width and the index is clamped into the new range; the listener is kept, since the grid and the track are the same element |
| SoundcloudCarousel.Carousel.SetItems | components/SoundcloudCarousel.tsx:65-80 | a new item count clamps the index into the new range; the listener survives unless the list becomes empty, which removes the element (line 165) |
| SoundcloudCarousel.Carousel.GoNext | components/SoundcloudCarousel.tsx:99-115 | no effect unless navigation is possible; otherwise locked and stepped to `NextIndex`, a wrap scheduling one unlock timer; the index stays valid |
| SoundcloudCarousel.Carousel.GoPrev | components/SoundcloudCarousel.tsx:117-129 | the same for `PrevIndex` |
| SoundcloudCarousel.Carousel.SnapTo | components/SoundcloudCarousel.tsx:84-97 | the index jumps to the target and nothing else changes |
| SoundcloudCarousel.Carousel.OnKey | components/SoundcloudCarousel.tsx:148-158 | ArrowRight and ArrowLeft, when navigation is possible, step to `NextIndex` and `PrevIndex` and lock; otherwise, and for other keys, index, lock and timers are unchanged |
| SoundcloudCarousel.Carousel.TransitionEnd | components/SoundcloudCarousel.tsx:131-139 | the end of a slide clears the lock when the listener is attached, and leaves it as it was when not |
| SoundcloudCarousel.Carousel.UnlockTimerFires | components/SoundcloudCarousel.tsx:109 | a pending 60 ms timer clears the lock |
| SoundcloudCarousel.NarrowSmallListFreezes | components/SoundcloudCarousel.tsx:131-139 | three items, resized to 500 px, one step: locked, with no listener and no timer pending, and navigation impossible |
| SoundcloudCarousel.ReusedTrackKeepsListener | components/SoundcloudCarousel.tsx:131-139 | five items shrunk to three on a narrow screen keep the mount-time listener, so the end of a slide unlocks and navigation is possible again |
| HeroTitle.Clamp | components/HeroCinematic.tsx:7-9 | within `[min, max]` when `min <= max`, unchanged inside, and `min` when the bounds are crossed |
| HeroTitle.WordStarts | components/HeroCinematic.tsx:62-69 | the loop's `starts[w]` is the total length of the earlier words plus one per space (`starts[0] = 0`, `starts[w+1] = starts[w] + len(words[w]) + 1`) |
| HeroTitle.LetterOfWordInJoin | components/HeroCinematic.tsx:71-75 | letter `j` of word `w` is that character of the word and sits at its index in the joined title |
| HeroTitle.WordLetters | components/HeroCinematic.tsx:56-76 | one group per space-separated word, in order, none containing a space |
| HeroTitle.LetterIndexPointsAtChar | components/HeroCinematic.tsx:71-75 | every letter's index points at that very character of the title, never a space |
| HeroTitle.LetterIndicesIncrease | components/HeroCinematic.tsx:65-73 | indices strictly increase in reading order, so they are unique |
| HeroTitle.SkippedPositionsAreSpaces | components/HeroCinematic.tsx:59-69 | a title position holds a non-space character exactly when some letter carries it as its index |
| HeroTitle.TiltAlternates | components/HeroCinematic.tsx:189 | neighbouring letters tilt opposite ways, the first by -1 degree |
| HeroTitle.TitleHover.constructor | components/HeroCinematic.tsx:38 | nothing hovered at first |
| HeroTitle.TitleHover.DimOthers | components/HeroCinematic.tsx:174 | with no letter hovered nothing is dimmed; while one is hovered, it is the only letter not dimmed |
| HeroTitle.TitleHover.EnterLetter | components/HeroCinematic.tsx:187 | the hovered letter stays bright and every other letter dims |
| HeroTitle.TitleHover.LeaveLetter | components/HeroCinematic.tsx:188 | nothing is dimmed |
| HeroTitle.TitleHover.LeaveSection | components/HeroCinematic.tsx:93-97 | leaving the section clears the hover |
| BioGallery.Steps | components/BioScrollGallery.tsx:49 | `max(1, images.length)`: the image count, and 1 for an empty list |
| BioGallery.Period | components/BioScrollGallery.tsx:58 | the configured interval, never below 1200 ms |
| BioGallery.Advance | components/BioScrollGallery.tsx:57 | one tick moves one on, wrapping from the last position to 0, and stays below `steps` |
| BioGallery.AfterTicks | components/BioScrollGallery.tsx:52-61 | after at least one tick the index is below `steps` |
| BioGallery.AfterTicksIsRotation | components/BioScrollGallery.tsx:52-61 | `k` ticks move the index `k` places round the cycle |
| BioGallery.EveryImageShownInTurn | components/BioScrollGallery.tsx:52-61 | from the first image the `j`-th tick shows image `j`, and `steps` ticks return to the start |
| BioGallery.NatToDecimal | components/BioScrollGallery.tsx:145 | `String(n)`: decimal digits without a leading zero that read back as `n` |
| BioGallery.PadStart | components/BioScrollGallery.tsx:145-147 | `padStart`: the input preceded by fill characters up to the width |
| BioGallery.Label | components/BioScrollGallery.tsx:145-147 | a label has at least two characters, all digits |
| BioGallery.LabelDenotesNumber | components/BioScrollGallery.tsx:145-147 | a label is two digits below 100, the plain digits from 10 on, and reads back as the number |
| BioGallery.Gallery.constructor | components/BioScrollGallery.tsx:26-37 | first image, no hover; an absent interval is 4500 ms and pause-on-hover defaults to on |
| BioGallery.Gallery.Tick | components/BioScrollGallery.tsx:52-58 | a tick advances the index modulo `steps`, leaving it inside the list, and the timer keeps running |
| BioGallery.Gallery.Current | components/BioScrollGallery.tsx:63 | the indexed image when the index is inside the list, the fallback otherwise |
| BioGallery.Gallery.ProgressLabels | components/BioScrollGallery.tsx:143-148 | the labels read back as the one-based position and the step count, two digits each below 100 |
| BioGallery.Gallery.MouseEnter | components/BioScrollGallery.tsx:93 | with pause-on-hover the interval (the effect at lines 52-54) stops; without it the interval is as it was |
| BioGallery.Gallery.MouseLeave | components/BioScrollGallery.tsx:94 | leaving runs the interval (the effect at lines 52-54) whenever there are images, and never stops a running one |
| BioGallery.Gallery.SetImages | components/BioScrollGallery.tsx:49 | new images replace the list and leave the index alone |
| TopNav.Pathname | components/TopNav.tsx:48 | a missing or empty pathname reads as `/`, any other is kept |
| TopNav.KeptMembers | components/TopNav.tsx:36-38 | the kept classes are exactly the truthy arguments: each comes from an argument, and every non-empty string argument is kept |
| TopNav.Kept | components/TopNav.tsx:36-38 | no more classes than arguments, none of them empty |
| TopNav.KeptAppend | components/TopNav.tsx:36-38 | one more argument adds its class at the end when truthy and nothing otherwise, so the classes keep argument order |
| TopNav.KeptSkipsDropped | components/TopNav.tsx:36-38 | a `false`, `null`, `undefined` or `""` argument changes nothing |
| TopNav.KeptConcat | components/TopNav.tsx:36-38 | filtering distributes over side-by-side argument lists |
| TopNav.Cx | components/TopNav.tsx:36-38 | `""` when nothing is kept; otherwise the result starts with the first kept class |
| TopNav.CxConcat | components/TopNav.tsx:36-38 | `cx` of two argument lists is their class strings joined by one space, or the non-empty one alone |
| TopNav.CxEmptyIffNothingKept | components/TopNav.tsx:36-38 | `cx` gives `""` exactly when no argument is a non-empty string |
| TopNav.CxSplitsBack | components/TopNav.tsx:36-38 | when no class holds a space, splitting the result on spaces gives back the kept classes, in order |
| TopNav.StripSlash | components/TopNav.tsx:41-42 | one trailing slash is removed unless it is the whole string; otherwise the string is unchanged |
| TopNav.IsActivePath | components/TopNav.tsx:40-44 | active exactly when equal, or when one is the other plus a trailing slash and that other has no removable slash of its own; the footer keeps an identical copy (components/NewsletterBlock.tsx:18-22) |
| TopNav.SameAfterStrip | components/TopNav.tsx:40-44 | the same relation, both directions, on the stripped forms |
| TopNav.IsActivePathIsEquivalence | components/TopNav.tsx:40-44 | reflexive, symmetric and transitive |
| TopNav.TrailingSlashIsActive | components/TopNav.tsx:40-44 | `/bio/` is active for `/bio`, `/biography` is not |
| TopNav.HomeActiveOnlyAtRoot | components/TopNav.tsx:40-44 | the home link is active only at `/` and `//` |
| TopNav.Menu.constructor | components/TopNav.tsx:47 | closed, with the page's overflow |
| TopNav.Menu.SetOpen | components/TopNav.tsx:62-69 | opening saves the body overflow and sets it to `hidden`; closing restores the saved value; setting the current value does nothing |
| TopNav.Menu.Toggle | components/TopNav.tsx:150 | the hamburger flips the flag, locking or restoring the scroll accordingly |
| TopNav.Menu.Close | components/TopNav.tsx:50 | `close` (brand, nav links, backdrop) leaves the menu closed and the overflow restored; on a closed menu nothing changes |
| TopNav.Menu.KeyDown | components/TopNav.tsx:53-59 | Escape closes an open menu and restores the saved overflow; any other key, or Escape on a closed menu, changes neither the flag, the overflow nor the saved value |
| TopNav.Menu.Unmount | components/TopNav.tsx:66-68 | unmounting while open restores the saved overflow; only the overflow and the saved value change |
| TopNav.OpenThenClose | components/TopNav.tsx:62-69 | opening then closing, by button or Escape, leaves the page's overflow as it was |
| NewsletterBlock.ExactlyOneFooterItemActive | components/NewsletterBlock.tsx:10-22 | on each footer page, with or without a trailing slash, exactly that page's footer link is current |
| NewsletterBlock.DistinctHrefs | components/NewsletterBlock.tsx:10-16 | the footer hrefs are pairwise distinct |
| NewsletterBlock.StripsToHref | components/NewsletterBlock.tsx:18-22 | a footer href, with or without a trailing slash, strips back to itself |
| NewsletterBlock.ActiveAgainst | components/NewsletterBlock.tsx:18-22 | a path stripping to one footer href marks that link and no other |
| NewsletterBlock.Footer.constructor | components/NewsletterBlock.tsx:59-70 | mounting installs the listener and schedules a first frame, its id in the ref; the button starts hidden |
| NewsletterBlock.Footer.HandleScroll | components/NewsletterBlock.tsx:60-66 | while the ref is set a scroll changes nothing; otherwise it schedules a frame; the button and the listener are untouched |
| NewsletterBlock.Footer.FrameRuns | components/NewsletterBlock.tsx:62-65 | the scheduled frame clears the ref and shows the button exactly when scrolled past 400 |
| NewsletterBlock.Footer.Unmount | components/NewsletterBlock.tsx:71-74 | the scheduled frame is cancelled and the listener removed, but the ref keeps the frame id |
| NewsletterBlock.Footer.Mount | components/NewsletterBlock.tsx:59-70 | the effect run again on the same refs installs the listener and runs the handler, which cannot unstick a stale ref |
| NewsletterBlock.MountUnmountMount | components/NewsletterBlock.tsx:59-74 | mount, cleanup and mount again leave the ref set with no frame scheduled and the button hidden |
| NewsletterBlock.ScrollWhileStuck | components/NewsletterBlock.tsx:60-61 | once stuck, a scroll leaves the footer stuck and the button unchanged |
| Sitemap.Base | app/sitemap.ts:5-8 | `SITE_URL` when it starts with "http", else `https://example.com`; the base always starts with "http" |
| Sitemap.Sitemap | app/sitemap.ts:10-19 | five entries in route order, each URL the base followed by its route, all sharing the clock and "weekly", priority 1 only for the home page and 0.7 for the rest |
| Sitemap.DistinctRoutes | app/sitemap.ts:12 | the routes are pairwise distinct |
| Sitemap.SitemapUrlsDistinct | app/sitemap.ts:14-15 | no URL appears twice |
| Sitemap.SitemapCoversNav | app/sitemap.ts:12-15 | the sitemap lists exactly the header's pages, in the header's order |

## Left out

- **String lengths.** JavaScript lengths count UTF-16 code units, and `split("")` splits between them. The model counts Unicode scalar values. Schema bounds, `company.length` and the letters of a title with characters outside the Basic Multilingual Plane therefore differ from the browser's.
- **E-mail format.** zod's format check is a parameter `isEmail`; only its length bound is modelled.
- **Request body.** JSON parsing and zod's number handling are abstracted into the `Json` datatype. A body that is not a JSON object is `None`.
- **Headers.** They are a map from lower-case names. `Headers.get`'s case-insensitivity and its joining of repeated headers are left out.
- **The rate limiter.** Upstash's sliding-window store and its analytics are left out. The rate-limit step is an `Allowed`, `Denied`, `SetupThrew` (from `Redis.fromEnv` or `new Ratelimit`, before any query) or `LimitThrew` (from `limit`) verdict, and the model records the query made.
- **The mail provider.** Resend's delivery is left out. The send is a `Resolved` or `SendThrew` verdict, and the model records the e-mail handed over.
- **Clocks.** `Date.now()`, `new Date()` and `toISOString()` are parameters: `now` in milliseconds and `isoTime` as text. The sitemap's `Date` is an integer.
- **`fetch` and the reply's JSON.** The form receives the reply as a value. A `message` or `error` field that is present but is not a string is not modelled.
- **BookingForm.Form.Submit:** the payload is returned as a value instead of being posted. The asynchronous gap between `Submit` and `Receive` is two calls, so overlapping requests are not modelled.
- **SoundcloudCarousel.Carousel.GoNext:** React's batching of `setIndex` and `setAnimating` is modelled as immediate updates. The stale `index` a queued key event would read is not modelled.
- **The carousel's presentation.** The forced reflow and inline transition style of `snapTo`, the `translateX` percentages and the SoundCloud player URL builder are left out, as is all JSX.
- **Motion.** Framer-motion springs, transforms, scroll drift, letter delays and the hero's pointer-to-parallax arithmetic are left out. Only `clamp` is modelled, on `real`.
- BioGallery.Period: `intervalMs` is an integer here. In JavaScript it is a number, so `NaN` passes through `Math.max` and a value above 2^31-1 overflows `setInterval`'s delay; both make the interval fire almost at once, which the model does not capture.
- **BioGallery.Gallery.Tick:** it fires only while the timer runs (its precondition). The timer's restart, and the phase lost whenever a dependency changes, are not modelled.
- **Scroll position and frames.** The scroll position is a `real`. The animation-frame id is two flags: `framePending` (the ref holds an id) and `frameQueued` (that frame is still scheduled).
- **The footer's other actions.** `scrollToTop`'s smooth scrolling and the static newsletter markup are left out.
