/**
 * The decisions of scripts.js, the script of the portfolio page: theme
 * start-up and toggle, the active navigation link, the project filter, the
 * project modal's tag line, the testimonial slider, and the contact form's
 * live validity.
 */
module PortfolioSite {
  import opened Text
  import opened Patterns
  import opened Wrap
  import opened Document

  // ---------------------------------------------------------------- theme

  /** `setTheme(mode)`: the attribute and the stored entry both become `mode`. */
  function SetTheme(mode: string): (d: Doc)
    ensures d.attr == d.stored == Some(mode)
  {
    Doc(Some(mode), Some(mode))
  }

  /** `savedTheme || (prefersDark ? 'dark' : 'light')`, applied and stored at start-up. */
  function StartupTheme(saved: Option<string>, prefersDark: bool): (d: Doc)
    ensures d.attr == d.stored
    ensures Truthy(saved) ==> d.attr == saved
    ensures !Truthy(saved) ==> d.attr == Some(if prefersDark then "dark" else "light")
  {
    SetTheme(if Truthy(saved) then saved.value else if prefersDark then "dark" else "light")
  }

  /** The toggle click: flip the current attribute and store it. */
  function ToggleMode(d: Doc): (e: Doc)
    ensures e.attr == e.stored
    ensures e.attr == Some("light") <==> d.attr == Some("dark")
    ensures e.attr == Some("dark") <==> d.attr != Some("dark")
  {
    SetTheme(FlipTheme(d.attr))
  }

  /** Whatever was saved, after one toggle the page is light or dark, and two toggles agree with one flip back. */
  lemma {:induction false} ToggleSettles(saved: Option<string>, prefersDark: bool)
    ensures var once := ToggleMode(StartupTheme(saved, prefersDark));
      (once.attr == Some("dark") || once.attr == Some("light"))
      && ToggleMode(ToggleMode(once)) == once
  {
    var once := ToggleMode(StartupTheme(saved, prefersDark));
    FlipTwice(once.attr);
  }

  // -------------------------------------------------------- active section

  /**
   * The section observer, for one entry: when section `id` intersects, every
   * link is deactivated and the first link whose href is `#id`, if any, is
   * activated; otherwise the links keep their state.
   */
  function ActiveLinks(hrefs: seq<Option<string>>, active: seq<bool>, id: string, intersecting: bool): (r: seq<bool>)
    requires |active| == |hrefs|
    ensures |r| == |hrefs|
    ensures !intersecting ==> r == active
    ensures intersecting ==> forall k :: 0 <= k < |r| ==> (r[k] <==> k == IndexOf(hrefs, Some("#" + id)))
  {
    if intersecting then Markers(|hrefs|, IndexOf(hrefs, Some("#" + id))) else active
  }

  /** After an intersection at most one link is active, and an active link points at the section. */
  lemma {:induction false} OneActiveLink(hrefs: seq<Option<string>>, active: seq<bool>, id: string)
    requires |active| == |hrefs|
    ensures var r := ActiveLinks(hrefs, active, id, true);
      && (forall k, l :: 0 <= k < l < |r| ==> !(r[k] && r[l]))
      && (forall k :: 0 <= k < |r| && r[k] ==> hrefs[k] == Some("#" + id))
      && ((exists k :: 0 <= k < |r| && r[k]) <==> Some("#" + id) in hrefs)
  {
    var r := ActiveLinks(hrefs, active, id, true);
    var target := IndexOf(hrefs, Some("#" + id));
    if target >= 0 {
      assert r[target];
    }
  }

  // ------------------------------------------------------ portfolio filter

  /**
   * `filter === 'all' || card.dataset.category === filter`; a missing
   * `data-filter` or `data-category` is `undefined`, and two of those are
   * equal.
   */
  predicate Show(filter: Option<string>, category: Option<string>)
  {
    filter == Some("all") || category == filter
  }

  /**
   * A click on filter button `clicked`: only that button is active, and a
   * card is displayed exactly when it passes the button's filter.
   */
  function ClickFilter(filters: seq<Option<string>>, clicked: nat, categories: seq<Option<string>>)
    : (r: (seq<bool>, seq<bool>))
    requires clicked < |filters|
    ensures |r.0| == |filters| && |r.1| == |categories|
    ensures forall b :: 0 <= b < |filters| ==> (r.0[b] <==> b == clicked)
    ensures forall c :: 0 <= c < |categories| ==> (r.1[c] <==> Show(filters[clicked], categories[c]))
  {
    (Markers(|filters|, clicked), seq(|categories|, c requires 0 <= c < |categories| => Show(filters[clicked], categories[c])))
  }

  /** The "all" button displays every card; a category button exactly the cards of that category. */
  lemma {:induction false} FilterAllOrCategory(filters: seq<Option<string>>, clicked: nat, categories: seq<Option<string>>)
    requires clicked < |filters|
    ensures filters[clicked] == Some("all") ==> forall c :: 0 <= c < |categories| ==> ClickFilter(filters, clicked, categories).1[c]
    ensures filters[clicked] != Some("all") ==>
      forall c :: 0 <= c < |categories| ==> (ClickFilter(filters, clicked, categories).1[c] <==> categories[c] == filters[clicked])
  {
  }

  /**
   * Two different category buttons never display the same card, and the
   * `all` button displays every card any button displays.
   */
  lemma {:induction false} FilterPartition(filters: seq<Option<string>>, i: nat, j: nat, categories: seq<Option<string>>)
    requires i < |filters| && j < |filters|
    ensures filters[i] != filters[j] && filters[i] != Some("all") && filters[j] != Some("all") ==>
      forall c :: 0 <= c < |categories| ==>
        !(ClickFilter(filters, i, categories).1[c] && ClickFilter(filters, j, categories).1[c])
    ensures filters[i] == Some("all") ==>
      forall c :: 0 <= c < |categories| && ClickFilter(filters, j, categories).1[c] ==>
        ClickFilter(filters, i, categories).1[c]
  {
  }

  // ------------------------------------------------------------ modal tags

  /** `.filter(Boolean)` on strings: the non-empty pieces, in order. */
  function NonEmpty(pieces: seq<string>): (r: seq<string>)
    ensures |r| <= |pieces|
    ensures forall k :: 0 <= k < |r| ==> r[k] != [] && r[k] in pieces
    ensures forall k :: 0 <= k < |pieces| && pieces[k] != [] ==> pieces[k] in r
  {
    if pieces == [] then []
    else if pieces[0] == [] then NonEmpty(pieces[1..])
    else [pieces[0]] + NonEmpty(pieces[1..])
  }

  /** `r` is `s` with some of its elements left out and the rest kept in order. */
  predicate IsSubsequence<T(==)>(r: seq<T>, s: seq<T>)
    decreases |s|
  {
    r == [] || (s != [] && ((r[0] == s[0] && IsSubsequence(r[1..], s[1..])) || IsSubsequence(r, s[1..])))
  }

  /**
   * The filter keeps the pieces in their order and every non-empty piece
   * as often as it occurs, and drops every empty one; together these fix
   * the result.
   */
  lemma {:induction false} NonEmptySpec(pieces: seq<string>)
    ensures IsSubsequence(NonEmpty(pieces), pieces)
    ensures multiset(NonEmpty(pieces)) == multiset(pieces)[[] := 0]
    ensures |NonEmpty(pieces)| == |pieces| - multiset(pieces)[[]]
  {
    if pieces != [] {
      var p, rest := pieces[0], pieces[1..];
      NonEmptySpec(rest);
      assert pieces == [p] + rest;
      assert multiset(pieces) == multiset{p} + multiset(rest);
      if p != [] {
        var r := NonEmpty(pieces);
        assert r[0] == p && r[1..] == NonEmpty(rest);
      }
    }
  }

  /** The filter works piece by piece: it distributes over concatenation and keeps a piece exactly when it is non-empty. */
  lemma {:induction false} NonEmptyAppend(a: seq<string>, b: seq<string>)
    ensures NonEmpty(a + b) == NonEmpty(a) + NonEmpty(b)
    ensures forall p :: NonEmpty([p]) == if p == [] then [] else [p]
  {
    if a == [] {
      assert a + b == b;
    } else {
      assert (a + b)[0] == a[0] && (a + b)[1..] == a[1..] + b;
      NonEmptyAppend(a[1..], b);
    }
  }

  /** `.map((t) => t.trim())`. */
  function TrimAll(pieces: seq<string>): (r: seq<string>)
    ensures |r| == |pieces|
    ensures forall k :: 0 <= k < |r| ==> r[k] == Trim(pieces[k])
  {
    if pieces == [] then [] else [Trim(pieces[0])] + TrimAll(pieces[1..])
  }

  /**
   * `(card.dataset.tags || '').split(',').filter(Boolean).map((t) => t.trim())`:
   * empty pieces are dropped before trimming, so a blank piece such as `" "`
   * survives as an empty tag.
   */
  function ParseTags(tags: Option<string>): (r: seq<string>)
  {
    TrimAll(NonEmpty(Split(if tags.Some? then tags.value else "", ',')))
  }

  /**
   * There is one tag per non-empty comma-separated piece of the attribute,
   * and tag `k` is the `k`-th non-empty piece, trimmed.
   */
  lemma ParseTagsPieces(tags: Option<string>)
    ensures var split := Split(if tags.Some? then tags.value else "", ',');
      && |ParseTags(tags)| == |split| - multiset(split)[[]]
      && forall k :: 0 <= k < |ParseTags(tags)| ==> ParseTags(tags)[k] == Trim(NonEmpty(split)[k])
    ensures forall k :: 0 <= k < |ParseTags(tags)| ==>
      exists p :: p in Split(if tags.Some? then tags.value else "", ',') && p != [] && ParseTags(tags)[k] == Trim(p)
  {
    var pieces := NonEmpty(Split(if tags.Some? then tags.value else "", ','));
    NonEmptySpec(Split(if tags.Some? then tags.value else "", ','));
    assert ParseTags(tags) == TrimAll(pieces);
    forall k | 0 <= k < |ParseTags(tags)|
      ensures exists p :: p in Split(if tags.Some? then tags.value else "", ',') && p != [] && ParseTags(tags)[k] == Trim(p)
    {
      var p := pieces[k];
      assert p in Split(if tags.Some? then tags.value else "", ',') && p != [] && ParseTags(tags)[k] == Trim(p);
    }
  }

  /** A tag that is non-empty, comma-free and already trimmed. */
  predicate CleanTag(t: string)
  {
    t != [] && ',' !in t && Trim(t) == t
  }

  /** Joining clean tags with commas and parsing gives the tags back. */
  lemma {:induction false} ParseTagsJoin(tags: seq<string>)
    requires |tags| >= 1
    requires forall k :: 0 <= k < |tags| ==> CleanTag(tags[k])
    ensures ParseTags(Some(Join(tags, [',']))) == tags
  {
    SplitJoin(tags, ',');
    NonEmptyKeeps(tags);
    TrimAllKeeps(tags);
  }

  lemma {:induction false} NonEmptyKeeps(pieces: seq<string>)
    requires forall k :: 0 <= k < |pieces| ==> pieces[k] != []
    ensures NonEmpty(pieces) == pieces
  {
    if pieces != [] {
      NonEmptyKeeps(pieces[1..]);
    }
  }

  lemma {:induction false} TrimAllKeeps(pieces: seq<string>)
    requires forall k :: 0 <= k < |pieces| ==> Trim(pieces[k]) == pieces[k]
    ensures TrimAll(pieces) == pieces
  {
    if pieces != [] {
      TrimAllKeeps(pieces[1..]);
    }
  }

  /** A missing attribute gives no tags. */
  lemma NoAttributeNoTags()
    ensures ParseTags(None) == []
  {
    assert Split("", ',') == [""];
  }

  /** An attribute of commas only gives no tags. */
  lemma CommasNoTags()
    ensures ParseTags(Some(",,")) == []
  {
    SplitComma();
    assert IndexOf(",,", ',') == 0;
    assert ",,"[1..] == ",";
    assert Split(",,", ',') == ["", "", ""];
  }

  lemma SplitComma()
    ensures Split(",", ',') == ["", ""]
  {
    assert IndexOf(",", ',') == 0;
    assert Split("", ',') == [""];
  }

  /** A blank piece is kept by the filter and trimmed to an empty tag. */
  lemma BlankPieceGivesEmptyTag()
    ensures ParseTags(Some(" ,ui")) == ["", "ui"]
  {
    SplitBlankUi();
    assert NonEmpty([" ", "ui"]) == [" ", "ui"];
    TrimBlankUi();
    assert TrimAll([" ", "ui"]) == [Trim(" "), Trim("ui")];
  }

  lemma SplitBlankUi()
    ensures Split(" ,ui", ',') == [" ", "ui"]
  {
    var s := " ,ui";
    assert s[0] != ',' && s[1] == ',';
    assert IndexOf(s, ',') == 1;
    assert s[..1] == " " && s[2..] == "ui";
    assert IndexOf("ui", ',') == -1;
  }

  lemma TrimBlankUi()
    ensures Trim(" ") == "" && Trim("ui") == "ui"
  {
    TrimEmptyIffAllSpace(" ");
    assert !IsSpace('u') && !IsSpace('i');
    assert TrimStart("ui") == "ui";
    assert TrimEnd("ui") == "ui";
  }

  /** `tags.length ? 'Tags: ' + tags.join(' • ') : ''`. */
  function TagsText(tags: seq<string>): (text: string)
    ensures text == "" <==> tags == []
    ensures tags != [] ==> |text| >= 6 && text[..6] == "Tags: " && text[6..] == Join(tags, " • ")
  {
    if tags == [] then "" else "Tags: " + Join(tags, " • ")
  }

  // ---------------------------------------------------- testimonial slider

  /**
   * The testimonial slider: `testiIndex`, the track's `translateX` in
   * percent, and the autoplay interval, which the pointer pauses while it is
   * over the track. The browser pairs every `mouseleave` with an earlier
   * `mouseenter`.
   */
  class TestimonialSlider {
    const count: nat
    var index: int
    /** The track's translation, in percent of its width. */
    var offsetPercent: int
    var hovered: bool
    /** The intervals running for the slider. */
    ghost var live: nat

    ghost predicate Valid()
      reads this
    {
      && count >= 1
      && 0 <= index < count
      && offsetPercent == -index * 100
      && live == if hovered then 0 else 1
    }

    /** Set up over `n` items; the interval starts at once. */
    constructor (n: nat)
      requires n >= 1
      ensures Valid() && count == n && index == 0 && !hovered
    {
      count, index, offsetPercent, hovered := n, 0, 0, false;
      live := 1;
    }

    /** `updateTestimonial`. */
    method Render()
      requires count >= 1 && 0 <= index < count && live == (if hovered then 0 else 1)
      modifies this`offsetPercent
      ensures Valid() && offsetPercent == -index * 100
    {
      offsetPercent := -index * 100;
    }

    method Prev()
      requires Valid()
      modifies this
      ensures Valid() && index == Pred(old(index), count) && hovered == old(hovered)
    {
      index := (index - 1 + count) % count;
      Render();
    }

    method Next()
      requires Valid()
      modifies this
      ensures Valid() && index == Succ(old(index), count) && hovered == old(hovered)
    {
      index := (index + 1) % count;
      Render();
    }

    /** The interval firing: the same step as the next button. */
    method Tick()
      requires Valid() && live == 1
      modifies this
      ensures Valid() && index == Succ(old(index), count) && live == 1
    {
      Next();
    }

    method OnMouseEnter()
      requires Valid() && !hovered
      modifies this
      ensures Valid() && hovered && live == 0 && index == old(index)
    {
      hovered := true;
      live := live - 1;
    }

    method OnMouseLeave()
      requires Valid() && hovered
      modifies this
      ensures Valid() && !hovered && live == 1 && index == old(index)
    {
      hovered := false;
      live := live + 1;
    }
  }

  /** Two items: prev from the first goes to the second, at -100%; a tick comes back. */
  method SliderScenario() returns (afterPrev: int, offset: int, afterTick: int)
    ensures afterPrev == 1 && offset == -100 && afterTick == 0
  {
    var s := new TestimonialSlider(2);
    s.Prev();
    afterPrev, offset := s.index, s.offsetPercent;
    s.OnMouseEnter();
    s.OnMouseLeave();
    s.Tick();
    afterTick := s.index;
  }

  // ---------------------------------------------------------- contact form

  datatype FieldKind = Name | Email | Message

  /** A field's `validate`: `true` (here `None`) or the error text. */
  function Validate(kind: FieldKind, v: string): (r: Option<string>)
    ensures kind == Name ==> (r.None? <==> |Trim(v)| >= 2)
    ensures kind == Email ==> (r.None? <==> EmailPattern(v))
    ensures kind == Message ==> (r.None? <==> |Trim(v)| >= 10)
    ensures r.Some? ==> r.value != ""
  {
    match kind
    case Name => if |Trim(v)| >= 2 then None else Some("Please enter your name.")
    case Email => if ValidateEmail(v) then None else Some("Enter a valid email.")
    case Message => if |Trim(v)| >= 10 then None else Some("Please write a few details (min 10 chars).")
  }

  /** The form's fields, in the order `updateValidity` visits them. */
  const FieldOrder: seq<FieldKind> := [Name, Email, Message]

  /**
   * `updateValidity` over the fields' current values: every field's error
   * text is written, the submit button is disabled exactly when some field
   * fails, and the result says whether all pass.
   */
  method UpdateValidity(kinds: seq<FieldKind>, values: seq<string>)
    returns (allValid: bool, errors: seq<string>, submitDisabled: bool)
    requires |kinds| == |values|
    ensures |errors| == |values|
    ensures forall k :: 0 <= k < |values| ==> (errors[k] == "" <==> Validate(kinds[k], values[k]).None?)
    ensures forall k :: 0 <= k < |values| && Validate(kinds[k], values[k]).Some? ==>
      errors[k] == Validate(kinds[k], values[k]).value
    ensures allValid <==> forall k :: 0 <= k < |values| ==> Validate(kinds[k], values[k]).None?
    ensures submitDisabled == !allValid
  {
    allValid, errors := true, [];
    var i := 0;
    while i < |values|
      invariant 0 <= i <= |values| && |errors| == i
      invariant forall k :: 0 <= k < i ==> (errors[k] == "" <==> Validate(kinds[k], values[k]).None?)
      invariant forall k :: 0 <= k < i && Validate(kinds[k], values[k]).Some? ==>
        errors[k] == Validate(kinds[k], values[k]).value
      invariant allValid <==> forall k :: 0 <= k < i ==> Validate(kinds[k], values[k]).None?
    {
      var res := Validate(kinds[i], values[i]);
      if res.Some? {
        errors := errors + [res.value];
        allValid := false;
      } else {
        errors := errors + [""];
      }
      i := i + 1;
    }
    submitDisabled := !allValid;
  }

  /** The portfolio form accepts a padded name and message but not a padded email. */
  method ContactScenario() returns (allValid: bool, errors: seq<string>)
    ensures |errors| == 3 && !allValid && errors[0] == "" && errors[1] == "Enter a valid email." && errors[2] == ""
  {
    var disabled;
    PaddedValues();
    var values := [" Ann ", " a@b.co", "Ten chars!"];
    assert FieldOrder[0] == Name && FieldOrder[1] == Email && FieldOrder[2] == Message;
    allValid, errors, disabled := UpdateValidity(FieldOrder, values);
    assert Validate(FieldOrder[1], values[1]).Some?;
  }

  /** What each rule says of the scenario's values. */
  lemma PaddedValues()
    ensures Validate(Name, " Ann ") == None
    ensures Validate(Email, " a@b.co") == Some("Enter a valid email.")
    ensures Validate(Message, "Ten chars!") == None
  {
    EmailRejectsSpace(" a@b.co", 0);
    PaddedName();
    PlainMessage();
  }

  lemma PaddedName()
    ensures Trim(" Ann ") == "Ann"
  {
    assert TrimStart(" Ann ") == TrimStart("Ann ") == "Ann ";
    assert TrimEnd("Ann ") == TrimEnd("Ann") == "Ann";
  }

  lemma PlainMessage()
    ensures Trim("Ten chars!") == "Ten chars!"
  {
    var m := "Ten chars!";
    assert !IsSpace(m[0]) && !IsSpace(m[|m| - 1]);
    assert TrimStart(m) == m;
    assert TrimEnd(m) == m;
  }
}
