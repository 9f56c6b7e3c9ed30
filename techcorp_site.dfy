/**
 * The decisions of script.js, the script of the corporate landing page:
 * theme start-up and toggle, the navbar's scroll state, the testimonial
 * carousel, and the contact form's field checks.
 */
module TechcorpSite {
  import opened Text
  import opened Patterns
  import opened Wrap
  import opened Document

  // ---------------------------------------------------------------- theme

  /**
   * `initTheme` at start-up: the page turns dark when dark was saved, or
   * nothing (or an empty string) was saved and the system prefers dark;
   * otherwise the attribute keeps what the markup had. Nothing is stored.
   */
  function InitTheme(markup: Option<string>, saved: Option<string>, prefersDark: bool): (d: Doc)
    ensures d.stored == saved
    ensures markup != Some("dark") ==>
      (d.attr == Some("dark") <==> saved == Some("dark") || (!Truthy(saved) && prefersDark))
    ensures d.attr != markup ==> d.attr == Some("dark")
  {
    if saved == Some("dark") || (!Truthy(saved) && prefersDark) then Doc(Some("dark"), saved)
    else Doc(markup, saved)
  }

  /** The toggle click: flip the attribute and store the new theme. */
  function Toggle(d: Doc): (e: Doc)
    ensures e.attr == e.stored && e.attr.Some?
    ensures e.attr == Some("light") <==> d.attr == Some("dark")
    ensures e.attr == Some("dark") <==> d.attr != Some("dark")
  {
    var t := FlipTheme(d.attr);
    Doc(Some(t), Some(t))
  }

  /** The system colour-scheme change: applied only while no theme is stored. */
  function SystemChange(d: Doc, matches: bool): (e: Doc)
    ensures Truthy(d.stored) ==> e == d
    ensures !Truthy(d.stored) ==> e.stored == d.stored && e.attr == Some(if matches then "dark" else "light")
  {
    if Truthy(d.stored) then d else d.(attr := Some(if matches then "dark" else "light"))
  }

  /** Once the toggle has been used, system changes no longer move the theme. */
  lemma SystemChangeAfterToggle(d: Doc, matches: bool)
    ensures SystemChange(Toggle(d), matches) == Toggle(d)
  {
  }

  /** Two toggles restore a light or dark page's attribute, and leave it stored. */
  lemma {:induction false} ToggleTwice(d: Doc)
    requires d.attr == Some("dark") || d.attr == Some("light")
    ensures Toggle(Toggle(d)).attr == d.attr && Toggle(Toggle(d)).stored == d.attr
  {
    FlipTwice(d.attr);
  }

  // --------------------------------------------------------------- navbar

  /**
   * The navbar scroll effect: a scroll event requests one animation frame
   * unless one is pending (`ticking`); the frame applies the scroll position.
   */
  class NavbarScroll {
    var lastScrollY: int
    var ticking: bool
    /** The `scrolled` class. */
    var scrolled: bool
    /** The bar is translated out of view. */
    var hidden: bool
    /** Animation frames requested and not yet run. */
    ghost var pendingFrames: nat

    ghost predicate Valid()
      reads this
    {
      pendingFrames == if ticking then 1 else 0
    }

    /** Set up at scroll position `y`; the markup starts unscrolled and shown. */
    constructor (y: int)
      ensures Valid() && lastScrollY == y && !ticking && !scrolled && !hidden
    {
      lastScrollY, ticking, scrolled, hidden := y, false, false, false;
      pendingFrames := 0;
    }

    /** The scroll listener: at most one frame is ever pending. */
    method OnScroll()
      requires Valid()
      modifies this
      ensures Valid() && ticking && pendingFrames == 1
      ensures lastScrollY == old(lastScrollY) && scrolled == old(scrolled) && hidden == old(hidden)
    {
      if !ticking {
        pendingFrames := pendingFrames + 1;
        ticking := true;
      }
    }

    /** `updateNavbar`, run by the pending frame with the scroll position `y` it reads. */
    method UpdateNavbar(y: int)
      requires Valid() && ticking
      modifies this
      ensures Valid() && !ticking
      ensures scrolled <==> y > 100
      ensures hidden <==> y > old(lastScrollY) && y > 200
      ensures lastScrollY == y
    {
      pendingFrames := pendingFrames - 1;
      scrolled := y > 100;
      hidden := y > lastScrollY && y > 200;
      lastScrollY := y;
      ticking := false;
    }
  }

  /** Scrolling down past 200 hides the bar; scrolling back up shows it again. */
  method NavbarScenario() returns (downHidden: bool, upHidden: bool, upScrolled: bool)
    ensures downHidden && !upHidden && upScrolled
  {
    var nav := new NavbarScroll(0);
    nav.OnScroll();
    nav.OnScroll();
    nav.UpdateNavbar(300);
    downHidden := nav.hidden;
    nav.OnScroll();
    nav.UpdateNavbar(250);
    upHidden, upScrolled := nav.hidden, nav.scrolled;
  }

  // ------------------------------------------------------ testimonial timer

  /**
   * The testimonial autoplay interval. `handle` says whether the interval
   * stored in `slideInterval` still runs; `orphans` counts running intervals
   * whose handle was overwritten, which nothing can clear any more.
   */
  datatype Timers = Timers(handle: bool, orphans: nat)

  function Live(t: Timers): nat
  {
    t.orphans + if t.handle then 1 else 0
  }

  /** `startAutoPlay` as written: a new interval over whatever runs already. */
  function StartAsWritten(t: Timers): (u: Timers)
    ensures Live(u) == Live(t) + 1 && u.handle
  {
    Timers(true, t.orphans + if t.handle then 1 else 0)
  }

  /** `startAutoPlay` clearing the previous interval first. */
  function StartCorrected(t: Timers): (u: Timers)
    ensures Live(u) == t.orphans + 1 && u.handle
  {
    Timers(true, t.orphans)
  }

  /** `stopAutoPlay`: clears the interval the handle names, and only that one. */
  function Stop(t: Timers): (u: Timers)
    ensures !u.handle && u.orphans == t.orphans && Live(u) == t.orphans
  {
    t.(handle := false)
  }

  /** The events that reach the timer: hover, leave, a testimonial button, an arrow key. */
  datatype Event = Hover | Leave | Button | Arrow

  /** The timer after the events, with `startAutoPlay` as written. */
  function RunAsWritten(t: Timers, events: seq<Event>): Timers
    decreases |events|
  {
    if events == [] then t
    else
      var u := match events[0]
        case Hover => Stop(t)
        case Leave => StartAsWritten(t)
        case Button => StartAsWritten(Stop(t))
        case Arrow => StartAsWritten(Stop(t));
      RunAsWritten(u, events[1..])
  }

  /** The timer after the events, with the corrected `startAutoPlay`. */
  function RunCorrected(t: Timers, events: seq<Event>): Timers
    decreases |events|
  {
    if events == [] then t
    else
      var u := match events[0]
        case Hover => Stop(t)
        case Leave => StartCorrected(t)
        case Button => StartCorrected(Stop(t))
        case Arrow => StartCorrected(Stop(t));
      RunCorrected(u, events[1..])
  }

  /** The timer right after set-up: `startAutoPlay()` has run once. */
  const Initial := Timers(true, 0)

  /**
   * As written, hovering, clicking a testimonial button and leaving leaves
   * two intervals running, one of which no later event can clear.
   */
  lemma HoverButtonLeaveLeaks()
    ensures Initial == StartAsWritten(Timers(false, 0))
    ensures var t := RunAsWritten(Initial, [Hover, Button, Leave]); Live(t) == 2 && t.orphans == 1
  {
  }

  /** As written, an orphaned interval survives every later event. */
  lemma {:induction false} OrphansNeverShrink(t: Timers, events: seq<Event>)
    ensures RunAsWritten(t, events).orphans >= t.orphans
    decreases |events|
  {
    if events != [] {
      var u := match events[0]
        case Hover => Stop(t)
        case Leave => StartAsWritten(t)
        case Button => StartAsWritten(Stop(t))
        case Arrow => StartAsWritten(Stop(t));
      OrphansNeverShrink(u, events[1..]);
    }
  }

  /** With the corrected `startAutoPlay`, at most one interval ever runs. */
  lemma {:induction false} CorrectedAtMostOne(t: Timers, events: seq<Event>)
    requires t.orphans == 0
    ensures RunCorrected(t, events).orphans == 0 && Live(RunCorrected(t, events)) <= 1
    decreases |events|
  {
    if events != [] {
      var u := match events[0]
        case Hover => Stop(t)
        case Leave => StartCorrected(t)
        case Button => StartCorrected(Stop(t))
        case Arrow => StartCorrected(Stop(t));
      CorrectedAtMostOne(u, events[1..]);
    }
  }

  // --------------------------------------------------- testimonial carousel

  /**
   * `initTestimonialCarousel`: the current slide, the `active` class of every
   * card and every button, and the autoplay interval (started with the
   * corrected `startAutoPlay`). There may be more buttons than cards, so a
   * button can select a slide past the last card. Until the first
   * `showSlide` the classes are those of the markup.
   */
  class TestimonialCarousel {
    const cardCount: nat
    const buttonCount: nat
    var index: int
    var cards: seq<bool>
    var buttons: seq<bool>
    /** `showSlide` has run at least once. */
    var shown: bool
    var timers: Timers

    ghost predicate Valid()
      reads this
    {
      && cardCount >= 1
      && 0 <= index && (index < cardCount || index < buttonCount)
      && |cards| == cardCount && |buttons| == buttonCount
      && (shown ==> cards == Markers(cardCount, index) && buttons == Markers(buttonCount, index))
      && timers.orphans == 0
    }

    constructor (markupCards: seq<bool>, markupButtons: seq<bool>)
      requires |markupCards| >= 1
      ensures Valid() && index == 0 && !shown
      ensures cardCount == |markupCards| && buttonCount == |markupButtons|
      ensures cards == markupCards && buttons == markupButtons
      ensures timers == Initial
    {
      cardCount, buttonCount := |markupCards|, |markupButtons|;
      index, cards, buttons, shown := 0, markupCards, markupButtons, false;
      timers := StartCorrected(Timers(false, 0));
    }

    /** `showSlide(index)`: exactly the card and the button at `index` are active. */
    method ShowSlide()
      requires 0 <= index && (index < cardCount || index < buttonCount) && cardCount >= 1
      requires |cards| == cardCount && |buttons| == buttonCount && timers.orphans == 0
      modifies this
      ensures Valid() && shown
      ensures cards == Markers(cardCount, index) && buttons == Markers(buttonCount, index)
      ensures index == old(index) && timers == old(timers)
    {
      cards := Markers(cardCount, index);
      buttons := Markers(buttonCount, index);
      shown := true;
    }

    /** `nextSlide`: one forward, wrapping over the cards. */
    method NextSlide()
      requires Valid()
      modifies this
      ensures Valid() && shown && timers == old(timers)
      ensures index == Succ(old(index), cardCount) && index < cardCount
    {
      index := (index + 1) % cardCount;
      ShowSlide();
    }

    method StartAutoPlay()
      requires Valid()
      modifies this
      ensures Valid() && timers == StartCorrected(old(timers)) && Live(timers) == 1
      ensures index == old(index) && cards == old(cards) && buttons == old(buttons) && shown == old(shown)
    {
      timers := StartCorrected(timers);
    }

    method StopAutoPlay()
      requires Valid()
      modifies this
      ensures Valid() && timers == Stop(old(timers)) && Live(timers) == 0
      ensures index == old(index) && cards == old(cards) && buttons == old(buttons) && shown == old(shown)
    {
      timers := Stop(timers);
    }

    /** A click on button `k`: show that slide and restart the interval. */
    method OnButton(k: nat)
      requires Valid() && k < buttonCount
      modifies this
      ensures Valid() && index == k && shown && Live(timers) == 1
    {
      index := k;
      ShowSlide();
      StopAutoPlay();
      StartAutoPlay();
    }

    method OnMouseEnter()
      requires Valid()
      modifies this
      ensures Valid() && index == old(index) && timers == Stop(old(timers)) && Live(timers) == 0
      ensures cards == old(cards) && buttons == old(buttons) && shown == old(shown)
    {
      StopAutoPlay();
    }

    method OnMouseLeave()
      requires Valid()
      modifies this
      ensures Valid() && index == old(index) && timers == StartCorrected(old(timers)) && Live(timers) == 1
      ensures cards == old(cards) && buttons == old(buttons) && shown == old(shown)
    {
      StartAutoPlay();
    }

    /** The document keydown handler: the arrows step and restart the interval; other keys do nothing. */
    method OnKeyDown(key: string)
      requires Valid()
      modifies this
      ensures Valid()
      ensures key == "ArrowLeft" ==> index == Pred(old(index), cardCount) && shown && Live(timers) == 1
      ensures key == "ArrowRight" ==> index == Succ(old(index), cardCount) && shown && Live(timers) == 1
      ensures key != "ArrowLeft" && key != "ArrowRight" ==>
        index == old(index) && cards == old(cards) && buttons == old(buttons) && timers == old(timers) && shown == old(shown)
    {
      if key == "ArrowLeft" {
        index := (index - 1 + cardCount) % cardCount;
        ShowSlide();
        StopAutoPlay();
        StartAutoPlay();
      } else if key == "ArrowRight" {
        NextSlide();
        StopAutoPlay();
        StartAutoPlay();
      }
    }

    /** The interval firing. */
    method Tick()
      requires Valid() && timers.handle
      modifies this
      ensures Valid() && index == Succ(old(index), cardCount) && timers == old(timers)
      ensures shown && cards == Markers(cardCount, index) && buttons == Markers(buttonCount, index)
    {
      NextSlide();
    }
  }

  /**
   * Three cards and four buttons: the fourth button selects a slide with no
   * card, and the next tick computes `(3 + 1) % 3` and lands on the second
   * card. Hover, button, leave keeps one interval with the corrected
   * `startAutoPlay` (`live`), where the one as written leaves two
   * (`liveAsWritten`).
   */
  method ButtonPastCardsScenario() returns (selected: int, afterTick: int, live: nat, liveAsWritten: nat)
    ensures selected == 3 && afterTick == 1 && live == 1 && liveAsWritten == 2
  {
    var c := new TestimonialCarousel([true, false, false], [true, false, false, false]);
    c.OnMouseEnter();
    c.OnButton(3);
    selected := c.index;
    c.OnMouseLeave();
    c.Tick();
    afterTick := c.index;
    live := Live(c.timers);
    liveAsWritten := Live(RunAsWritten(Initial, [Hover, Button, Leave]));
  }

  // -------------------------------------------------------- contact fields

  /** A form control as `validateField` sees it; `caption` is the text of its first label. */
  datatype Field = Field(name: string, kind: string, value: string, required: bool, caption: Option<string>)

  const EmailMessage := "Please enter a valid email address."
  const ShortMessage := "Message must be at least 10 characters long."

  /** The required rule: a required control that is blank once trimmed. */
  predicate RequiredFails(f: Field)
  {
    f.required && Trim(f.value) == []
  }

  /** The email rule, applied to the untrimmed, non-empty value of an email control. */
  ghost predicate EmailFails(f: Field)
  {
    f.kind == "email" && f.value != [] && !EmailPattern(f.value)
  }

  /** The message rule: a `message` control holding 1 to 9 characters. */
  predicate MessageFails(f: Field)
  {
    f.name == "message" && 0 < |f.value| < 10
  }

  ghost predicate FieldPasses(f: Field)
  {
    !RequiredFails(f) && !EmailFails(f) && !MessageFails(f)
  }

  /** `${field.labels[0]?.textContent || field.name} is required.` */
  function RequiredMessage(f: Field): (msg: string)
    ensures Truthy(f.caption) ==> msg == f.caption.value + " is required."
    ensures !Truthy(f.caption) ==> msg == f.name + " is required."
  {
    (if Truthy(f.caption) then f.caption.value else f.name) + " is required."
  }

  /**
   * `validateField`: the rules run in order and each failing one overwrites
   * the message, so the last failing rule's message is the one shown.
   */
  method ValidateField(f: Field) returns (valid: bool, message: string)
    ensures valid <==> FieldPasses(f)
    ensures valid <==> message == ""
    ensures MessageFails(f) ==> message == ShortMessage
    ensures !MessageFails(f) && EmailFails(f) ==> message == EmailMessage
    ensures !MessageFails(f) && !EmailFails(f) && RequiredFails(f) ==> message == RequiredMessage(f)
  {
    valid, message := true, "";
    if f.required && Trim(f.value) == [] {
      valid, message := false, RequiredMessage(f);
    }
    if f.kind == "email" && f.value != [] {
      if !ValidateEmail(f.value) {
        valid, message := false, EmailMessage;
      }
    }
    if f.name == "message" && |f.value| > 0 && |f.value| < 10 {
      valid, message := false, ShortMessage;
    }
  }

  /**
   * The submit handler: every control is validated, even after one fails,
   * and the form is valid exactly when every control passes.
   */
  method SubmitForm(fields: seq<Field>) returns (formValid: bool, verdicts: seq<bool>, messages: seq<string>)
    ensures |verdicts| == |fields| && |messages| == |fields|
    ensures forall k :: 0 <= k < |fields| ==> (verdicts[k] <==> FieldPasses(fields[k]))
    ensures forall k :: 0 <= k < |fields| ==> (verdicts[k] <==> messages[k] == "")
    ensures formValid <==> forall k :: 0 <= k < |fields| ==> FieldPasses(fields[k])
  {
    formValid, verdicts, messages := true, [], [];
    var i := 0;
    while i < |fields|
      invariant 0 <= i <= |fields|
      invariant |verdicts| == i && |messages| == i
      invariant forall k :: 0 <= k < i ==> (verdicts[k] <==> FieldPasses(fields[k]))
      invariant forall k :: 0 <= k < i ==> (verdicts[k] <==> messages[k] == "")
      invariant formValid <==> forall k :: 0 <= k < i ==> FieldPasses(fields[k])
    {
      var ok, msg := ValidateField(fields[i]);
      if !ok {
        formValid := false;
      }
      verdicts, messages := verdicts + [ok], messages + [msg];
      i := i + 1;
    }
  }
}
