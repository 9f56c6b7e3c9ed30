# Verified model of the Charan.dev site scripts

This project models the logic that three static marketing sites and one
React landing page run in the browser, and proves what that logic promises.

- **js/app.js** (interior design site):
  - the `Carousel` class: slide index, pointer drag with a 15% threshold,
    snap and resize, arrow keys, and autoplay;
  - the `Lightbox` class: galleries by id, an open/closed modal, and a
    wraparound index that can become NaN on an empty gallery;
  - `validateEmail`, the newsletter form, the contact form and the
    call-back form.
- **script.js** (corporate site): the theme start-up, toggle and
  system-change rules, the navbar scroll decision, the testimonial
  carousel with its autoplay interval, `validateField` and the submit
  loop.
- **scripts.js** (portfolio site): the theme, the active navigation link,
  the project filter, the modal's tag line, the testimonial slider, the
  field validators and `updateValidity`.
- **techcorp/src/theme/ThemeProvider.jsx**: the initial theme, the
  toggle, the effect that mirrors the theme into the page and into local
  storage, and the system-change handler.

Modules:

- `Text`: JavaScript's `trim` white space, `trim`, `indexOf`,
  `split` and `join`.
- `Patterns`: the email and phone regular expressions. Each is written
  as its language (a predicate over split points) and as a decider, and
  the two are proved equal.
- `Wrap`: the `(i ± 1 + n) % n` slide index and the marker row (dots,
  active classes).
- `Document`: the `data-theme` attribute and the stored theme.
- `Carousel`, `Lightbox` and `InteriorForms` model js/app.js;
  `TechcorpSite` models script.js; `PortfolioSite` models scripts.js;
  `ThemeProvider` models the React provider.

Classes keep the fields the source mutates in place. Browser inputs are
method parameters: the pointer position, the key, the scroll position,
`matchMedia`, and the stored theme. The js/app.js carousel, the navbar
and the scripts.js slider count their live intervals or pending frames in
a ghost field tied to the handle or flag the code keeps. The script.js
testimonial carousel keeps its intervals in an ordinary `Timers` value:
whether the stored handle still runs, and how many running intervals
lost their handle.

Where the code and the behaviour described for it disagree, the model
follows the code, with one exception. The script.js testimonial class
runs the corrected `startAutoPlay`. The code as written is modelled
beside it and is the subject of the Findings section. The divergences:

- The js/app.js carousel's previous/next buttons and arrow keys do not
  restart the autoplay interval. Among navigations only a drag does,
  through `onPointerUp`; the pointer leaving the viewport also restarts
  it.
- The portfolio tag list runs `.filter(Boolean)` before `.trim()`, so a
  blank piece such as `" "` survives as an empty tag
  (`PortfolioSite.BlankPieceGivesEmptyTag`).
- With one slide, `next` and `prev` are not no-ops: the index stays 0,
  but the track is re-rendered.

## Model

| member | source | states |
|---|---|---|
| Text.TrimSpec | js/app.js:411 | `trim` keeps a contiguous slice of the input that starts and ends with a non-space; everything it drops is white space |
| Text.TrimEmptyIffAllSpace | script.js:282 | a value is blank after `trim` exactly when it consists of white space only |
| Text.TrimIdempotent | js/app.js:411 | trimming twice is the same as trimming once |
| Text.IndexOf | scripts.js:54 | `find` by position (and `indexOf`): the first position holding the value, or -1 exactly when it is absent |
| Text.Split | scripts.js:93 | `split` yields at least one piece, no piece holds the separator, and joining the pieces with the separator gives back the input |
| Text.SplitJoin | scripts.js:93 | splitting a join of separator-free pieces gives the pieces back |
| Patterns.ValidateEmail | js/app.js:377 | `validateEmail`, and the same test in the other two scripts: the decider accepts exactly the language of `^[^\s@]+@[^\s@]+\.[^\s@]+$` |
| Patterns.EmailHasOneAt | js/app.js:377 | every accepted address holds exactly one `@` |
| Patterns.EmailHasOneAtContra | js/app.js:377 | a string with zero or several `@` is rejected |
| Patterns.EmailRejectsSpace | scripts.js:147 | a value holding any white space, a leading or trailing space included, is rejected |
| Patterns.EmailAccepts | js/app.js:377 | `a@b.co` is accepted |
| Patterns.EmailRejects | js/app.js:377 | `a@b`, `@b.co` and `a@@b.co` are rejected |
| Patterns.ValidatePhone | js/app.js:418 | the decider accepts exactly the language of `^\+?[0-9\-\s]{7,15}$`, with the `+` either absent or taken |
| Wrap.Succ | js/app.js:253 | `(i + 1) % n` stays in `[0, n)` and is the next slide, wrapping from the last to the first |
| Wrap.Pred | js/app.js:254 | `(i - 1 + n) % n` stays in `[0, n)` and is the previous slide, wrapping from the first to the last |
| Wrap.PredSucc | js/app.js:253-254 | stepping back after stepping forward restores the index |
| Wrap.SuccPred | js/app.js:253-254 | stepping forward after stepping back restores the index |
| Wrap.SuccN | js/app.js:253 | `k <= n` forward steps from `i` land on `i + k`, or `i + k - n` once past the end |
| Wrap.FullCycle | js/app.js:253 | `n` forward steps return to the start, and no fewer do |
| Wrap.Markers | js/app.js:248 | the marker row has one entry per slide, set exactly at the index; `Wrap.MarkersExactlyOne` draws the consequence that one position at most is marked |
| Wrap.MarkersExactlyOne | js/app.js:248 | a valid index marks exactly one position, an invalid one none |
| Carousel.DragRelease | js/app.js:221-224 | a drag right past 15% of the width goes back, one left past it goes forward, anything shorter snaps back (three exclusive cases) |
| Carousel.Released | js/app.js:221-224 | the index after a release stays in range and is the previous slide, the next slide, or unchanged |
| Carousel.Carousel.constructor | js/app.js:131-151 | index 0, first dot selected, track at 0, and one interval exactly when autoplay is on and motion is not reduced |
| Carousel.Carousel.SetTransform | js/app.js:230-244 | the track ends at `x`, animated exactly when the duration is non-zero; nothing else changes |
| Carousel.Carousel.Update | js/app.js:246-251 | the dot at the index is selected and the track animates to `-index * width` |
| Carousel.Carousel.Next | js/app.js:253 | the index becomes its successor; dots and offset follow; drag and timer state are unchanged |
| Carousel.Carousel.Prev | js/app.js:254 | the index becomes its predecessor; dots and offset follow; drag and timer state are unchanged |
| Carousel.Carousel.GoTo | js/app.js:255 | a dot click selects slide `i`, renders it, and changes nothing else |
| Carousel.Carousel.Snap | js/app.js:228 | the offset becomes exactly `-index * width`, without animation |
| Carousel.Carousel.Resize | js/app.js:178-181 | the new width is recorded and the track snaps, unanimated, to `-index * w` |
| Carousel.Carousel.OnKeyDown | js/app.js:184-187 | ArrowRight steps forward and ArrowLeft steps back, re-rendering dots and offset exactly as `next`/`prev` do and leaving the drag and the interval as they were; any other key changes nothing |
| Carousel.Carousel.OnPointerDown | js/app.js:202-207 | sets `startX = currentX = x` and `deltaX = 0`, marks the pointer down, switches the transition off and leaves no interval |
| Carousel.Carousel.OnPointerMove | js/app.js:209-215 | does nothing unless a pointer is down; otherwise `deltaX = x - startX` and the track sits at `-index * width + deltaX` |
| Carousel.Carousel.OnPointerUp | js/app.js:217-226 | does nothing unless a pointer is down; otherwise ends the drag, applies the release rule, and restarts autoplay |
| Carousel.Carousel.StartAutoplay | js/app.js:257-261 | with autoplay on and motion not reduced, exactly one interval runs afterwards; otherwise nothing changes |
| Carousel.Carousel.PauseAutoplay | js/app.js:263 | no interval runs afterwards and nothing else changes |
| Carousel.Carousel.AutoplayTick | js/app.js:260 | an interval tick is exactly `next`: the index steps forward, dots and offset follow, and the drag state and the interval stay |
| Carousel.DragScenario | js/app.js:202-226 | three 300 px slides at the first: a 40 px drag snaps back, a 60 px drag wraps to the last slide |
| Carousel.RoundTrip | js/app.js:253-254 | next then prev returns to the starting slide |
| Carousel.FullCycleScenario | js/app.js:257-260 | `n` autoplay ticks on `n` slides come back to the starting slide |
| Lightbox.Gallery | js/app.js:312-334 | the five known ids have two images each; any other id has none |
| Lightbox.StepForward | js/app.js:371 | `(index + 1) % n`: NaN exactly when there are no images, otherwise the next image, wrapping |
| Lightbox.StepBack | js/app.js:372 | `(index - 1 + n) % n`: NaN exactly when there are no images, otherwise the previous image, wrapping |
| Lightbox.StepBackForward | js/app.js:371-372 | on a non-empty gallery, prev after next restores the index |
| Lightbox.Rendered | js/app.js:357-369 | exactly the image at the index is active, and no image once the index is NaN; it is `Wrap.Markers` at the index (no position for NaN), so `Wrap.MarkersExactlyOne` gives it exactly one active image on a non-empty gallery |
| Lightbox.Lightbox.constructor | js/app.js:272-286 | closed, with no images, at index 0 |
| Lightbox.Lightbox.Render | js/app.js:357-369 | the track shows exactly the image at the index as active |
| Lightbox.Lightbox.Open | js/app.js:311-338 | loads the id's gallery (none for an unknown id), resets the index to 0, renders, and opens |
| Lightbox.Lightbox.OnTriggerClick | js/app.js:289-295 | a trigger with an empty id changes nothing; any other id opens its gallery at the first image and renders it |
| Lightbox.Lightbox.Close | js/app.js:350-355 | closes and clears the track, keeping images and index |
| Lightbox.Lightbox.Next | js/app.js:371 | the index steps forward (NaN on no images) and is rendered |
| Lightbox.Lightbox.Prev | js/app.js:372 | the index steps back (NaN on no images) and is rendered |
| Lightbox.Lightbox.SelectDot | js/app.js:366 | a dot click selects its image and renders it |
| Lightbox.Lightbox.OnKeyDown | js/app.js:301-306 | keys are ignored while closed; Escape closes; the arrows step and re-render the track; other keys change nothing |
| Lightbox.UnknownGalleryScenario | js/app.js:334-371 | opening an unknown gallery and pressing ArrowRight leaves the index NaN and nothing shown |
| Lightbox.KnownGalleryScenario | js/app.js:301-306 | on a known gallery ArrowRight goes to the second image and ArrowLeft back to the first |
| InteriorForms.NewsletterMessage | js/app.js:381-389 | subscribed exactly when the input exists and its trimmed value is an email; otherwise the email error |
| InteriorForms.SetErr | js/app.js:405-409 | the field's error text is recorded, and `ok` survives only when that text is empty; `InteriorForms.SubmitContact` proves from this that the form passes exactly when every text is empty |
| InteriorForms.Notify | js/app.js:426-431 | the status line is the success text when `ok`, otherwise cleared; `InteriorForms.SubmitContact` ties it to the acceptance rule |
| InteriorForms.CheckName | js/app.js:411-412 | the name error is empty exactly when the trimmed name has at least two characters |
| InteriorForms.CheckEmail | js/app.js:414-415 | the email error is empty exactly when the trimmed email matches the pattern |
| InteriorForms.CheckPhone | js/app.js:417-419 | the phone error is empty exactly when the trimmed phone matches the phone pattern |
| InteriorForms.CheckService | js/app.js:421 | the service error is empty exactly when a service is selected |
| InteriorForms.CheckMessage | js/app.js:423-424 | the message error is empty exactly when the trimmed message is empty or has at least five characters |
| InteriorForms.SubmitContact | js/app.js:402-432 | the form succeeds exactly when all five rules hold; every rule's error text is written, and the status line follows |
| InteriorForms.SubmitCallback | js/app.js:450-457 | the call-back form succeeds exactly when the trimmed name has two characters and the phone matches; both error texts and the status follow |
| InteriorForms.BlankMessageIsOptional | js/app.js:423-424 | an empty or blank message passes the message rule |
| Document.FlipTheme | script.js:50 | the flip gives light exactly from dark, and dark from anything else, absence included; `Document.FlipTwice` proves it an involution on light and dark |
| Document.FlipTwice | script.js:50 | flipping a light or dark page twice restores its theme |
| TechcorpSite.InitTheme | script.js:41-46 | the page turns dark exactly when dark is saved, or nothing is saved and the system prefers dark; otherwise the markup's attribute stays; nothing is stored |
| TechcorpSite.Toggle | script.js:48-54 | dark becomes light and anything else dark, and the stored preference equals the new theme |
| TechcorpSite.SystemChange | script.js:63-67 | a system change is applied exactly when no preference is stored |
| TechcorpSite.SystemChangeAfterToggle | script.js:48-67 | after any toggle, system changes no longer move the theme |
| TechcorpSite.ToggleTwice | script.js:49-53 | two toggles restore a light or dark attribute and leave it stored |
| TechcorpSite.NavbarScroll.constructor | script.js:97-98 | starts at the current scroll position with no frame pending |
| TechcorpSite.NavbarScroll.OnScroll | script.js:120-125 | a scroll leaves exactly one frame pending, however many scrolls arrive |
| TechcorpSite.NavbarScroll.UpdateNavbar | script.js:100-118 | `scrolled` exactly when `y > 100`, hidden exactly when `y > lastY` and `y > 200`; `lastY` becomes `y` and no frame is pending |
| TechcorpSite.NavbarScenario | script.js:100-125 | scrolling down past 200 hides the bar; scrolling up shows it again while it stays `scrolled` |
| TechcorpSite.StartAsWritten | script.js:188-190 | `startAutoPlay` as written adds one running interval to those already running |
| TechcorpSite.StartCorrected | script.js:188-194 | starting after clearing leaves one running interval besides the orphans |
| TechcorpSite.Stop | script.js:192-194 | `stopAutoPlay` clears only the interval the handle names |
| TechcorpSite.HoverButtonLeaveLeaks | script.js:188-212 | as written, hover, then a testimonial button, then leave leaves two intervals, one of them unreachable |
| TechcorpSite.OrphansNeverShrink | script.js:188-226 | as written, no later event clears an orphaned interval |
| TechcorpSite.CorrectedAtMostOne | script.js:188-226 | with the corrected start, no interval is ever orphaned and at most one runs, whatever the events |
| TechcorpSite.TestimonialCarousel.constructor | script.js:167-207 | starts at slide 0, classes as in the markup, one interval running |
| TechcorpSite.TestimonialCarousel.ShowSlide | script.js:173-181 | exactly the card and the button at the index are active |
| TechcorpSite.TestimonialCarousel.NextSlide | script.js:183-186 | the index steps forward, wrapping over the cards, and is shown |
| TechcorpSite.TestimonialCarousel.StartAutoPlay | script.js:188-190 | exactly one interval runs afterwards |
| TechcorpSite.TestimonialCarousel.StopAutoPlay | script.js:192-194 | no interval runs afterwards |
| TechcorpSite.TestimonialCarousel.OnButton | script.js:197-204 | a button selects its slide, shows it, and restarts the interval |
| TechcorpSite.TestimonialCarousel.OnMouseEnter | script.js:211 | hovering stops the held interval and leaves the slide, the cards and the buttons as they were |
| TechcorpSite.TestimonialCarousel.OnMouseLeave | script.js:212 | leaving starts an interval (one in all, with the corrected start) and leaves the slide, the cards and the buttons as they were |
| TechcorpSite.TestimonialCarousel.OnKeyDown | script.js:215-226 | ArrowLeft and ArrowRight wrap back or forward over the cards, show the slide and restart the interval; other keys change nothing |
| TechcorpSite.TestimonialCarousel.Tick | script.js:183-189 | an interval tick steps forward over the cards and shows that slide: exactly its card and button are active |
| TechcorpSite.ButtonPastCardsScenario | script.js:183-212 | with three cards and four buttons, the fourth button selects a slide with no card and the next tick lands on the second card; after hover, button and leave one interval runs with the corrected start, and two with the start as written |
| TechcorpSite.RequiredMessage | script.js:284 | the message uses the first label's text when it is non-empty, otherwise the field's name |
| TechcorpSite.ValidateField | script.js:272-311 | a field is valid exactly when it passes the required, email and message rules, exactly when no message is set; the last failing rule's message wins |
| TechcorpSite.SubmitForm | script.js:325-333 | every field is validated, with no short-circuit; the form is valid exactly when every field passes |
| PortfolioSite.SetTheme | scripts.js:5-8 | the attribute and the stored entry both become the mode; `PortfolioSite.ToggleSettles` builds the toggle's properties on it |
| PortfolioSite.StartupTheme | scripts.js:2-9 | a non-empty saved theme is applied and stored; otherwise dark exactly when the system prefers dark |
| PortfolioSite.ToggleMode | scripts.js:12-15 | dark becomes light and anything else dark, stored as well |
| PortfolioSite.ToggleSettles | scripts.js:9-15 | after one toggle the page is light or dark, and two more toggles restore it |
| PortfolioSite.ActiveLinks | scripts.js:51-63 | an intersecting section activates exactly the first link to `#id`; otherwise the links keep their state |
| PortfolioSite.OneActiveLink | scripts.js:54-61 | after an intersection at most one link is active, it points at the section, and one is active exactly when such a link exists |
| PortfolioSite.ClickFilter | scripts.js:69-78 | only the clicked button is active, and a card is displayed exactly when the filter is `all` or matches its category |
| PortfolioSite.FilterAllOrCategory | scripts.js:75 | `all` shows every card; any other filter shows exactly the cards of that category |
| PortfolioSite.FilterPartition | scripts.js:69-78 | two different category buttons never display the same card, and `all` displays every card any button displays |
| PortfolioSite.NonEmpty | scripts.js:93 | `.filter(Boolean)` keeps no empty piece and every non-empty one |
| PortfolioSite.NonEmptySpec | scripts.js:93 | the filter's result is a subsequence of the pieces holding every non-empty piece as often as it occurs and no empty one, so there are as many results as non-empty pieces |
| PortfolioSite.NonEmptyAppend | scripts.js:93 | the filter distributes over concatenation and keeps a single piece exactly when it is non-empty |
| PortfolioSite.TrimAll | scripts.js:93 | `.map(trim)` trims each piece in place |
| PortfolioSite.ParseTagsPieces | scripts.js:93 | there is one tag per non-empty comma-separated piece of the attribute, tag `k` being the `k`-th non-empty piece trimmed |
| PortfolioSite.ParseTagsJoin | scripts.js:93 | clean tags joined with commas parse back to themselves |
| PortfolioSite.NoAttributeNoTags | scripts.js:93 | a missing `data-tags` gives no tags |
| PortfolioSite.CommasNoTags | scripts.js:93 | an attribute of commas only gives no tags |
| PortfolioSite.BlankPieceGivesEmptyTag | scripts.js:93 | a blank piece survives the filter and becomes an empty tag |
| PortfolioSite.TagsText | scripts.js:94 | the tag line is empty exactly when there are no tags, otherwise `Tags: ` followed by the tags joined with ` • ` |
| PortfolioSite.TestimonialSlider.constructor | scripts.js:129-137 | starts at item 0 with one interval running |
| PortfolioSite.TestimonialSlider.Render | scripts.js:131-134 | the track's offset is `-index * 100` percent |
| PortfolioSite.TestimonialSlider.Prev | scripts.js:135 | the index steps back, wrapping, and the offset follows |
| PortfolioSite.TestimonialSlider.Next | scripts.js:136 | the index steps forward, wrapping, and the offset follows |
| PortfolioSite.TestimonialSlider.Tick | scripts.js:137 | the interval steps forward like the next button |
| PortfolioSite.TestimonialSlider.OnMouseEnter | scripts.js:138 | hovering clears the interval and keeps the index |
| PortfolioSite.TestimonialSlider.OnMouseLeave | scripts.js:139 | leaving starts one interval and keeps the index |
| PortfolioSite.SliderScenario | scripts.js:135-139 | with two items, prev goes to the second at -100%, and after a hover a tick comes back to the first |
| PortfolioSite.Validate | scripts.js:146-148 | the name passes exactly when the trimmed value has two characters, the email exactly when the untrimmed value matches, the message exactly when the trimmed value has ten; failures carry a non-empty text |
| PortfolioSite.UpdateValidity | scripts.js:150-163 | every field's error text is empty exactly when it passes; the result is true exactly when all pass; submit is disabled exactly when one fails |
| PortfolioSite.ContactScenario | scripts.js:145-163 | a padded name and message pass, but a padded email fails, which disables submit |
| PortfolioSite.PaddedValues | scripts.js:146-148 | what each rule says of `" Ann "`, `" a@b.co"` and `"Ten chars!"` |
| ThemeProvider.InitialTheme | techcorp/src/theme/ThemeProvider.jsx:6-12 | dark without a window; a stored light or dark is used as is; otherwise dark exactly when the system prefers dark |
| ThemeProvider.ToggleTheme | techcorp/src/theme/ThemeProvider.jsx:29 | dark becomes light and anything else dark |
| ThemeProvider.ToggleInvolutive | techcorp/src/theme/ThemeProvider.jsx:29 | toggling a light or dark theme twice gives it back |
| ThemeProvider.Effect | techcorp/src/theme/ThemeProvider.jsx:14-17 | after the effect the attribute equals the theme, and so does the stored value unless storage throws |
| ThemeProvider.SetTheme | techcorp/src/theme/ThemeProvider.jsx:6-17 | setting the same theme changes nothing; a new theme is applied through the effect |
| ThemeProvider.Toggle | techcorp/src/theme/ThemeProvider.jsx:29 | the toggle flips the theme and mirrors it into the attribute and, with working storage, the stored value |
| ThemeProvider.SystemChange | techcorp/src/theme/ThemeProvider.jsx:21-24 | a system change applies exactly when nothing is stored |
| ThemeProvider.Mount | techcorp/src/theme/ThemeProvider.jsx:6-17 | the first render's effect writes the initial theme to the attribute and, with working storage, to the stored value |
| ThemeProvider.SystemChangeInertAfterMount | techcorp/src/theme/ThemeProvider.jsx:14-24 | with working storage, system changes never move the theme after mount, before or after any number of toggles |
| ThemeProvider.TogglesKeepStored | techcorp/src/theme/ThemeProvider.jsx:14-17 | with working storage, the stored value keeps equal to the theme over any number of toggles |
| ThemeProvider.SystemChangeAppliesWithoutStorage | techcorp/src/theme/ThemeProvider.jsx:16-23 | when storage throws and nothing was stored, a system change does move the theme |

## Left out

- Floating point: the eased animation and the parsing of the current transform (js/app.js:230-244) are not modelled. A render records the offset the track ends at and whether it animates.
- Carousel.Carousel.SetTransform: does not capture that a later drag leaves an in-flight animation frame running. The track's intermediate positions are not modelled.
- Carousel.DragRelease: models the threshold `width * 0.15` exactly in integers (`deltaX * 100` against `width * 15`); fractional pixel widths are not modelled.
- Carousel.Carousel.constructor: requires at least one slide. With none, `% 0` makes the index NaN, which the carousel model does not follow.
- Carousel.Carousel.GoTo: requires an index in range. Only the dot buttons call it, each with its own position.
- Carousel.Carousel.OnPointerUp: pointer cancel and pointer leave run the same handler and are not separate members.
- Carousel.Carousel.StartAutoplay: takes the reduced-motion query as a parameter instead of calling `matchMedia`.
- Lightbox.Gallery: a gallery id naming an inherited object property (such as `constructor`) is treated as unknown.
- Lightbox.Lightbox.constructor: the page without a lightbox element (the early return) is not modelled.
- The lightbox's focus trap, the focus calls, and the creation of images and dots are DOM construction and are not modelled.
- Timers: `setInterval`, `setTimeout` and `requestAnimationFrame` are not scheduled. The model counts what runs, in a ghost field or in the testimonial carousel's `Timers` value, and `throttle` on resize is not modelled.
- TechcorpSite.TestimonialCarousel.StartAutoPlay: the class uses the corrected `startAutoPlay`. The as-written version is modelled by `TechcorpSite.StartAsWritten` and `TechcorpSite.RunAsWritten` (see Findings).
- TechcorpSite.TestimonialCarousel.constructor: requires at least one card. With none, `% 0` makes the index NaN.
- PortfolioSite.TestimonialSlider.constructor: requires at least one item. With none, `% 0` makes the index NaN.
- PortfolioSite.TestimonialSlider.OnMouseEnter: requires the pointer outside the track, and OnMouseLeave requires it inside. This is the pairing the browser guarantees.
- Wrap.SuccN: the position after `k` steps is characterised only for `k <= n`.
- Strings are sequences of code points, while JavaScript counts UTF-16 code units. Lengths differ only outside the Basic Multilingual Plane.
- `localStorage` and `matchMedia` are parameters. A `getItem` that throws is not modelled; a `setItem` that throws is modelled only where the provider catches it.
- ThemeProvider.Mount: server rendering (no window) yields the initial theme only, because effects do not run there.
- Form side effects are left out: `form.reset()`, the call-back modal's delayed close, `aria-invalid`, focus, and the `error` classes.
- The scripts.js navbar `scrolled` class, the case-study scroll buttons, and the project modal's open and close are not modelled.
- Left out as outside the named logic: the script.js parallax, counters, notifications, videos, lazy images and service worker, and the navigation menu toggles.
- The other techcorp/src JSX files are not part of this model. They are static markup.

## Findings

| source | as written | input that shows it | evidently intended | confidence | as-written member | corrected member |
|---|---|---|---|---|---|---|
| script.js:188-190 | `startAutoPlay` stores a new interval in `slideInterval` without clearing the one already there | hover the carousel, click a testimonial button, leave: two intervals run, and the first can no longer be cleared, so slides advance twice per period | at most one autoplay interval at any time | not executed | TechcorpSite.HoverButtonLeaveLeaks | TechcorpSite.CorrectedAtMostOne |
