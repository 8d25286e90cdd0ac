/**
  The generator page as a state machine. The DOM is reduced to the fields its
  handlers read and write; every event handler of the page is a transition
  function, and `Step` dispatches an event to its handler.
 */
module Ui {
  import Text
  import opened Strength
  import opened Charset
  import opened Generator
  import opened Saved

  const MinLength: int := 6
  const MaxLength: int := 20

  /** The text used when the page's password field starts out empty. */
  const FallbackPlaceholder: string := "P4$5W0rD!"

  /** Visibility of the save dialog: the overlay, the name form, the success message. */
  datatype Modal = Modal(overlayHidden: bool, formHidden: bool, successHidden: bool)

  /** The dialog as `closeModal` leaves it. */
  const Closed: Modal := Modal(true, false, true)

  /** The dialog as the save button opens it. */
  const OpenForm: Modal := Modal(false, false, true)

  datatype Page = Page(
    boxes: Boxes,                 // the four class check boxes
    slider: int,                  // the length slider's value
    countText: int,               // the length shown beside the slider
    text: string,                 // the password field's text
    placeholder: bool,            // whether the password field carries the placeholder class
    defaultPlaceholder: string,   // the text restored after a save
    strengthText: string,         // the strength label shown
    bars: seq<set<string>>,       // the class lists of the strength bars
    copyDisabled: bool,
    saveDisabled: bool,
    modal: Modal,
    nameField: string,            // the profile-name input
    generatorHidden: bool,
    savedHidden: bool,
    saved: seq<Entry>,            // the stored list
    rows: seq<Row>,               // the rendered saved-list panel
    pendingCloses: nat            // auto-close timers scheduled and not yet fired
  )

  /** What the markup and the store provide when the script starts. */
  datatype Markup = Markup(
    boxes: Boxes, slider: int, countText: int, text: string, placeholder: bool,
    bars: seq<set<string>>, modal: Modal, generatorHidden: bool, savedHidden: bool,
    stored: seq<Entry>)

  datatype Alert = NoAlert | Alert(message: string)

  /** The page after a handler, and the alert it raised, if any. */
  datatype Outcome = Outcome(page: Page, alert: Alert)

  /** Copy and save are disabled unless a real (non-placeholder, non-empty) password is shown. */
  predicate ActionsDisabled(text: string, placeholder: bool)
  {
    !(text != "" && !placeholder)
  }

  /** Invariant of every page the handlers can produce. */
  predicate Wf(p: Page)
  {
    && MinLength <= p.slider <= MaxLength
    && |p.bars| >= MaxLevel
    && p.copyDisabled == ActionsDisabled(p.text, p.placeholder)
    && p.saveDisabled == ActionsDisabled(p.text, p.placeholder)
    && (!p.modal.overlayHidden && !p.modal.formHidden ==> !p.placeholder)
    && AllConsistent(p.rows)
  }

  /** `updateStrength`: the label text and the bars for a class count and a length. */
  function UpdateStrength(p: Page, charTypes: int, passwordLength: int): (q: Page)
    requires |p.bars| >= MaxLevel
    ensures var r := Classify(charTypes, passwordLength);
            q.strengthText == StrengthText(r) && FilledCount(q.bars) == r.level
    ensures |q.bars| == |p.bars|
    ensures q.bars == Meter(p.bars, Classify(charTypes, passwordLength).level)
    ensures q.(strengthText := p.strengthText, bars := p.bars) == p
  {
    var r := Classify(charTypes, passwordLength);
    MeterFillsLevelBars(p.bars, r.level);
    p.(strengthText := StrengthText(r), bars := Meter(p.bars, r.level))
  }

  /** `toggleCopyButton` and `toggleSaveButton` together. */
  function RefreshActions(p: Page): (q: Page)
    ensures q.copyDisabled <==> p.text == [] || p.placeholder
    ensures q.saveDisabled <==> p.text == [] || p.placeholder
    ensures q.(copyDisabled := p.copyDisabled, saveDisabled := p.saveDisabled) == p
  {
    var d := ActionsDisabled(p.text, p.placeholder);
    p.(copyDisabled := d, saveDisabled := d)
  }

  /** Page load: strength from the markup's boxes and slider, actions gated, list rendered. */
  function Init(m: Markup): (p: Page)
    requires MinLength <= m.slider <= MaxLength && |m.bars| >= MaxLevel
    requires m.modal.overlayHidden
    ensures Wf(p)
    ensures p.saved == m.stored && p.rows == Render(m.stored)
    ensures p.defaultPlaceholder == if m.text == "" then FallbackPlaceholder else m.text
    ensures p.copyDisabled && p.saveDisabled <==> m.text == "" || m.placeholder
    ensures var r := Classify(CountEnabled(m.boxes), m.slider);
            p.strengthText == StrengthText(r) && FilledCount(p.bars) == r.level
    ensures p.text == m.text && p.placeholder == m.placeholder
    ensures p.boxes == m.boxes && p.slider == m.slider
    ensures p.pendingCloses == 0 && p.modal == m.modal
  {
    var p0 := Page(m.boxes, m.slider, m.countText, m.text, m.placeholder,
                   if m.text == "" then FallbackPlaceholder else m.text,
                   "", m.bars, true, true, m.modal, "", m.generatorHidden, m.savedHidden,
                   m.stored, [], 0);
    var p1 := UpdateStrength(p0, CountEnabled(m.boxes), m.slider);
    RefreshActions(p1).(rows := Render(m.stored))
  }

  // ---------------------------------------------------------------- handlers

  /** The slider's input event: new length shown and strength recomputed. */
  function Slide(p: Page, value: int): (q: Page)
    requires Wf(p) && MinLength <= value <= MaxLength
    ensures Wf(q)
    ensures q.slider == value && q.countText == value
    ensures FilledCount(q.bars) == Classify(CountEnabled(p.boxes), value).level
    ensures q.strengthText == StrengthText(Classify(CountEnabled(p.boxes), value))
    ensures q.text == p.text && q.saved == p.saved && q.boxes == p.boxes && q.modal == p.modal
    ensures q.(slider := p.slider, countText := p.countText, strengthText := p.strengthText, bars := p.bars) == p
  {
    UpdateStrength(p.(slider := value, countText := value), CountEnabled(p.boxes), value)
  }

  /**
    The change event of box `k`, which the browser has already flipped. If that
    leaves no box checked, the box is checked again; otherwise the strength is
    recomputed with the new count.
   */
  function CheckBox(p: Page, k: Class): (q: Page)
    requires Wf(p)
    ensures Wf(q)
    ensures CountEnabled(q.boxes) >= 1
    ensures CountEnabled(p.boxes.With(k, !p.boxes.Checked(k))) == 0 ==> q == p
    ensures CountEnabled(p.boxes.With(k, !p.boxes.Checked(k))) > 0 ==>
              q.boxes == p.boxes.With(k, !p.boxes.Checked(k))
              && FilledCount(q.bars) == Classify(CountEnabled(q.boxes), p.slider).level
              && q.strengthText == StrengthText(Classify(CountEnabled(q.boxes), p.slider))
              && q.(boxes := p.boxes, strengthText := p.strengthText, bars := p.bars) == p
  {
    var flipped := p.boxes.With(k, !p.boxes.Checked(k));
    var checkedCount := CountEnabled(flipped);
    if checkedCount == 0 then
      assert p.boxes == flipped.With(k, true);
      p.(boxes := flipped.With(k, true))
    else
      UpdateStrength(p.(boxes := flipped), checkedCount, p.slider)
  }

  /** The generate button: a fresh password replaces the field's text and enables copy and save. */
  function GenerateClick(p: Page, draws: seq<nat>): (q: Page)
    requires Wf(p)
    requires |draws| == p.slider && ValidDraws(draws, |CharsetOf(p.boxes)|)
    ensures Wf(q)
    ensures q.text == Generate(p.boxes, p.slider, draws).password
    ensures !q.placeholder && !q.copyDisabled && !q.saveDisabled
    ensures FilledCount(q.bars) == Classify(CountEnabled(p.boxes), p.slider).level
    ensures q.strengthText == StrengthText(Classify(CountEnabled(p.boxes), p.slider))
    ensures q.boxes == p.boxes && q.saved == p.saved && q.modal == p.modal && q.slider == p.slider
    ensures q.(text := p.text, placeholder := p.placeholder, copyDisabled := p.copyDisabled,
               saveDisabled := p.saveDisabled, strengthText := p.strengthText, bars := p.bars) == p
  {
    var g := Generate(p.boxes, p.slider, draws);
    var q1 := p.(text := g.password, placeholder := false);
    RefreshActions(UpdateStrength(q1, g.charTypes, g.passwordLength))
  }

  /** The save button: opens the dialog on its form, unless only the placeholder is shown. */
  function SaveClick(p: Page): (o: Outcome)
    requires Wf(p)
    ensures Wf(o.page)
    ensures p.placeholder ==> o.page == p && o.alert.Alert?
    ensures !p.placeholder ==> o.page.modal == OpenForm && o.page.(modal := p.modal) == p && o.alert == NoAlert
  {
    if p.placeholder then Outcome(p, Alert("Generate a password first!"))
    else Outcome(p.(modal := OpenForm), NoAlert)
  }

  /** `closeModal`: overlay and success message hidden, form visible again. */
  function CloseModal(p: Page): (q: Page)
    requires Wf(p)
    ensures Wf(q)
    ensures q.modal.overlayHidden && !q.modal.formHidden && q.modal.successHidden
    ensures q.(modal := p.modal) == p
  {
    p.(modal := p.modal.(overlayHidden := true).(formHidden := false).(successHidden := true))
  }

  /** A click on the overlay closes the dialog only when it lands on the overlay itself. */
  function OverlayClick(p: Page, onOverlay: bool): (q: Page)
    requires Wf(p)
    ensures Wf(q)
    ensures onOverlay ==> q.modal == Closed && q.(modal := p.modal) == p
    ensures !onOverlay ==> q == p
  {
    if onOverlay then CloseModal(p) else p
  }

  /** Typing in the profile-name input. */
  function EnterName(p: Page, s: string): (q: Page)
    requires Wf(p)
    ensures Wf(q)
    ensures q.nameField == s && q.(nameField := p.nameField) == p
  {
    p.(nameField := s)
  }

  /**
    The form's submit: a name that trims to nothing raises an alert and changes
    nothing; otherwise the trimmed name and the shown password are appended to
    the list, the success message replaces the form, an auto-close is scheduled,
    and the password field returns to the placeholder.
   */
  function Submit(p: Page): (o: Outcome)
    requires Wf(p)
    ensures Wf(o.page)
    ensures Text.AllSpace(p.nameField) ==> o.page == p && o.alert.Alert?
    ensures !Text.AllSpace(p.nameField) ==>
              && o.alert == NoAlert
              && |o.page.saved| == |p.saved| + 1
              && o.page.saved[..|p.saved|] == p.saved
              && o.page.saved[|p.saved|] == Entry(Text.Trim(p.nameField), p.text)
              && o.page.text == p.defaultPlaceholder && o.page.placeholder
              && o.page.copyDisabled && o.page.saveDisabled
              && o.page.nameField == ""
              && o.page.modal.formHidden && !o.page.modal.successHidden
              && o.page.modal.overlayHidden == p.modal.overlayHidden
              && o.page.pendingCloses == p.pendingCloses + 1
              && o.page.boxes == p.boxes && o.page.rows == p.rows
              && o.page.(saved := p.saved, modal := p.modal, pendingCloses := p.pendingCloses,
                         nameField := p.nameField, text := p.text, placeholder := p.placeholder,
                         copyDisabled := p.copyDisabled, saveDisabled := p.saveDisabled) == p
  {
    var name := Text.Trim(p.nameField);
    Text.TrimEmptyIffAllSpace(p.nameField);
    if name == "" then Outcome(p, Alert("Please enter a profile name!"))
    else
      var q := p.(saved := p.saved + [Entry(name, p.text)],
                  modal := p.modal.(formHidden := true, successHidden := false),
                  pendingCloses := p.pendingCloses + 1,
                  nameField := "",
                  text := p.defaultPlaceholder,
                  placeholder := true);
      Outcome(RefreshActions(q), NoAlert)
  }

  /** The auto-close timer firing: the dialog closes and the panel is rendered again. */
  function AutoClose(p: Page): (q: Page)
    requires Wf(p) && p.pendingCloses > 0
    ensures Wf(q)
    ensures q.modal == Closed
    ensures q.rows == Render(p.saved)
    ensures q.pendingCloses == p.pendingCloses - 1
    ensures q.saved == p.saved && q.text == p.text
    ensures q.(modal := p.modal, rows := p.rows, pendingCloses := p.pendingCloses) == p
  {
    CloseModal(p).(rows := Render(p.saved), pendingCloses := p.pendingCloses - 1)
  }

  /** The "view passwords" button: switch to the saved panel and render it. */
  function ViewClick(p: Page): (q: Page)
    requires Wf(p)
    ensures Wf(q)
    ensures q.generatorHidden && !q.savedHidden && q.rows == Render(p.saved)
    ensures q.(generatorHidden := p.generatorHidden, savedHidden := p.savedHidden, rows := p.rows) == p
  {
    p.(generatorHidden := true, savedHidden := false, rows := Render(p.saved))
  }

  /** The back button: switch to the generator panel. */
  function BackClick(p: Page): (q: Page)
    requires Wf(p)
    ensures Wf(q)
    ensures !q.generatorHidden && q.savedHidden
    ensures q.(generatorHidden := p.generatorHidden, savedHidden := p.savedHidden) == p
  {
    p.(generatorHidden := false, savedHidden := true)
  }

  /** The show/hide button of rendered row `i`. */
  function ShowHide(p: Page, i: nat): (q: Page)
    requires Wf(p) && i < |p.rows|
    ensures Wf(q)
    ensures q.rows == ToggleAt(p.rows, i)
    ensures q.(rows := p.rows) == p
  {
    p.(rows := ToggleAt(p.rows, i))
  }

  // ---------------------------------------------------------------- dispatch

  datatype Event =
    | SlideTo(value: int)
    | Check(box: Class)
    | GenerateButton(draws: seq<nat>)
    | SaveButton
    | CloseButton
    | OverlayPress(onOverlay: bool)
    | TypeName(s: string)
    | SubmitForm
    | TimerFires
    | ViewButton
    | BackButton
    | ToggleRowButton(index: nat)

  /** Which events the page can deliver in a given state. */
  predicate Allowed(p: Page, e: Event)
  {
    match e
    case SlideTo(v) => MinLength <= v <= MaxLength
    case GenerateButton(draws) =>
      |draws| == p.slider && ValidDraws(draws, |CharsetOf(p.boxes)|)
    // the browser only submits the form while it is visible in the open dialog
    // a disabled save button delivers no click
    case SaveButton => !p.saveDisabled
    case SubmitForm => !p.modal.overlayHidden && !p.modal.formHidden
    case TimerFires => p.pendingCloses > 0
    case ToggleRowButton(i) => i < |p.rows|
    case _ => true
  }

  function Step(p: Page, e: Event): (o: Outcome)
    requires Wf(p) && Allowed(p, e)
    ensures Wf(o.page)
  {
    match e
    case SlideTo(v) => Outcome(Slide(p, v), NoAlert)
    case Check(k) => Outcome(CheckBox(p, k), NoAlert)
    case GenerateButton(draws) => Outcome(GenerateClick(p, draws), NoAlert)
    case SaveButton => SaveClick(p)
    case CloseButton => Outcome(CloseModal(p), NoAlert)
    case OverlayPress(on) => Outcome(OverlayClick(p, on), NoAlert)
    case TypeName(s) => Outcome(EnterName(p, s), NoAlert)
    case SubmitForm => Submit(p)
    case TimerFires => Outcome(AutoClose(p), NoAlert)
    case ViewButton => Outcome(ViewClick(p), NoAlert)
    case BackButton => Outcome(BackClick(p), NoAlert)
    case ToggleRowButton(i) => Outcome(ShowHide(p, i), NoAlert)
  }

  /** A session: events the page cannot deliver in the current state are dropped. */
  function Run(p: Page, es: seq<Event>): (q: Page)
    requires Wf(p)
    ensures Wf(q)
    decreases |es|
  {
    if es == [] then p
    else
      var next := if Allowed(p, es[0]) then Step(p, es[0]).page else p;
      Run(next, es[1..])
  }

  // ---------------------------------------------------------------- properties

  /** Closing is idempotent. */
  lemma CloseIdempotent(p: Page)
    requires Wf(p)
    ensures CloseModal(CloseModal(p)) == CloseModal(p)
  {
  }

  /** After a generate, copy and save are both enabled (the slider never asks for an empty password). */
  lemma GenerateEnablesActions(p: Page, draws: seq<nat>)
    requires Wf(p) && Allowed(p, GenerateButton(draws))
    ensures var q := GenerateClick(p, draws); q.text != [] && !q.copyDisabled && !q.saveDisabled
  {
  }

  /** A submitted entry never carries the placeholder: the form is only reachable with a real password. */
  lemma SubmitSavesRealPassword(p: Page)
    requires Wf(p) && Allowed(p, SubmitForm)
    requires !Text.AllSpace(p.nameField)
    ensures !p.placeholder
    ensures Submit(p).page.saved[|p.saved|].password == p.text
  {
  }

  /** One step never removes or rewrites a stored entry. */
  lemma StepKeepsSaved(p: Page, e: Event)
    requires Wf(p) && Allowed(p, e)
    ensures var q := Step(p, e).page; |p.saved| <= |q.saved| && q.saved[..|p.saved|] == p.saved
  {
  }

  /** One step keeps at least one class enabled. */
  lemma StepKeepsAClass(p: Page, e: Event)
    requires Wf(p) && Allowed(p, e) && CountEnabled(p.boxes) >= 1
    ensures CountEnabled(Step(p, e).page.boxes) >= 1
  {
  }

  /** Over a whole session the stored list only grows at its end. */
  lemma {:induction false} RunKeepsSaved(p: Page, es: seq<Event>)
    requires Wf(p)
    ensures var q := Run(p, es); |p.saved| <= |q.saved| && q.saved[..|p.saved|] == p.saved
    decreases |es|
  {
    if es != [] {
      var next := if Allowed(p, es[0]) then Step(p, es[0]).page else p;
      if Allowed(p, es[0]) {
        StepKeepsSaved(p, es[0]);
      }
      RunKeepsSaved(next, es[1..]);
      var q := Run(p, es);
      assert q == Run(next, es[1..]);
      assert q.saved[..|next.saved|][..|p.saved|] == q.saved[..|p.saved|];
    }
  }

  /** Over a whole session at least one class stays enabled once one is. */
  lemma {:induction false} RunKeepsAClass(p: Page, es: seq<Event>)
    requires Wf(p) && CountEnabled(p.boxes) >= 1
    ensures CountEnabled(Run(p, es).boxes) >= 1
    decreases |es|
  {
    if es != [] {
      var next := if Allowed(p, es[0]) then Step(p, es[0]).page else p;
      if Allowed(p, es[0]) {
        StepKeepsAClass(p, es[0]);
      }
      RunKeepsAClass(next, es[1..]);
    }
  }
}
