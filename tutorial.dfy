/**
 * The mascot's scripted tutorial. The step is 0 when the dialogue is closed
 * and 1 to 5 while it is open; `tutorialData` has one entry per step, and
 * steps 2 to 5 each point the user at one section of the screen.
 */
module Tutorial {
  import opened Optional

  /** The last step of the tour; the steps are 0 .. LastStep. */
  const LastStep: int := 5

  predicate InRange(step: int)
  {
    0 <= step <= LastStep
  }

  /** A section of the dashboard that a tutorial step can highlight. */
  datatype Section = MedicationButton | VitaminsButton | HealthButton | ProfileIcon

  /** An entry of `tutorialData`: the dialogue text and the section highlighted, either possibly absent. */
  datatype Entry = Entry(text: Option<string>, highlight: Option<Section>)

  /** Tapping the mascot (`startTutorial`): a closed tour opens at its first step, an open one closes. */
  function Start(step: int): (r: int)
    ensures InRange(r)
    ensures r != 0 <==> step == 0
    ensures step == 0 ==> r == 1
  {
    if step == 0 then 1 else 0
  }

  /** The Next/Finish button (`nextStep`): advance one step, and close after the last. */
  function Next(step: int): (r: int)
    ensures InRange(step) ==> InRange(r)
    ensures InRange(step) && r != 0 ==> r == step + 1
    ensures InRange(step) ==> (r == 0 <==> step == LastStep)
  {
    if step < LastStep then step + 1 else 0
  }

  /** The Previous button (`previousStep`): go back one step, never below the first; from step 1 or 0 it closes. */
  function Previous(step: int): (r: int)
    ensures InRange(step) ==> InRange(r)
    ensures InRange(step) && step > 1 ==> r == step - 1
    ensures step <= 1 ==> r == 0
  {
    if step > 1 then step - 1 else 0
  }

  /** Going back undoes going forward, wherever going forward does not close the tour. */
  lemma PreviousAfterNext(step: int)
    requires 0 <= step < LastStep
    ensures Previous(Next(step)) == step
  {
  }

  /** Going forward undoes going back, wherever the Previous button is shown. */
  lemma NextAfterPrevious(step: int)
    requires 1 < step <= LastStep
    ensures Next(Previous(step)) == step
  {
  }

  /** `k` presses of Next, starting from `step`. */
  function NextTimes(step: int, k: nat): int
  {
    if k == 0 then step else Next(NextTimes(step, k - 1))
  }

  /** Pressing Next cycles through the six steps: after `k` presses an in-range step is at `(step + k) mod 6`. */
  lemma {:induction false} NextCycles(step: int, k: nat)
    requires InRange(step)
    ensures NextTimes(step, k) == (step + k) % (LastStep + 1)
  {
    if k > 0 {
      NextCycles(step, k - 1);
    }
  }

  /** Every step of the tour is reached from the closed state by tapping the mascot and pressing Next. */
  lemma EveryStepReachable(step: int)
    requires 1 <= step <= LastStep
    ensures NextTimes(Start(0), step - 1) == step
  {
    NextCycles(Start(0), step - 1);
  }

  /** `tutorialData` for a given partner name: six entries, indexed by step. */
  function TutorialData(partnerName: string): (data: seq<Entry>)
    ensures |data| == LastStep + 1
    ensures data[0] == Entry(None, None)
    ensures forall step :: 1 <= step <= LastStep ==> data[step].text.Some?
  {
    [ Entry(None, None),
      Entry(Some("\U{1F431} Hi, I'm your partner " + partnerName + " and I will guide you today!"), None),
      Entry(Some("\U{1F431} This is your Medication section. This is where your doctor can prescribe medications for you. "), Some(MedicationButton)),
      Entry(Some("\U{1F431} This is your Vitamins section. Track your vitamins and daily intake here."), Some(VitaminsButton)),
      Entry(Some("\U{1F431} Here is the Health Products list. Manage supplements and other health items."), Some(HealthButton)),
      Entry(Some("\U{1F431} Tap the profile icon to open Settings and manage your profile."), Some(ProfileIcon)) ]
  }

  /** `tutorialData[tutorialStep]?.highlight`: an index outside the table yields no highlight. */
  function CurrentHighlight(partnerName: string, step: int): (h: Option<Section>)
    ensures !InRange(step) ==> h.None?
  {
    var data := TutorialData(partnerName);
    if 0 <= step < |data| then data[step].highlight else None
  }

  /** The step whose entry highlights a section. */
  function StepOf(section: Section): int
  {
    match section
    case MedicationButton => 2
    case VitaminsButton => 3
    case HealthButton => 4
    case ProfileIcon => 5
  }

  /**
   * While the tour is closed or greeting, nothing is highlighted; each later
   * step highlights exactly one section, and each section is highlighted by
   * exactly one step, whatever the partner is called.
   */
  lemma HighlightOneToOne(partnerName: string, step: int, section: Section)
    ensures step <= 1 ==> CurrentHighlight(partnerName, step).None?
    ensures 2 <= step <= LastStep ==> CurrentHighlight(partnerName, step).Some?
    ensures CurrentHighlight(partnerName, step) == Some(section) <==> step == StepOf(section)
  {
    var data := TutorialData(partnerName);
    if 0 <= step <= LastStep {
      var h := data[step].highlight;
      assert h == [None, None, Some(MedicationButton), Some(VitaminsButton), Some(HealthButton), Some(ProfileIcon)][step];
    }
  }

  /**
   * The dialogue bubble's text (`tutorialData[tutorialStep].text`), shown
   * only while the tour is open; the lookup stays inside the six entries.
   */
  function DialogText(partnerName: string, step: int): (t: Option<string>)
    requires InRange(step)
    ensures t.Some? <==> step > 0
  {
    if step > 0 then TutorialData(partnerName)[step].text else None
  }

  /** The label of the forward button: "Finish" on the last step, "Next" before it. */
  function NextLabel(step: int): string
  {
    if step < LastStep then "Next" else "Finish"
  }

  /** The Previous button is shown only after the first step. */
  predicate PreviousShown(step: int)
  {
    step > 1
  }

  /**
   * The buttons say what they do: on an open step, the forward button reads
   * "Finish" exactly when pressing it closes the tour, and the Previous
   * button, when shown, never closes it.
   */
  lemma ButtonsMatchTransitions(step: int)
    requires 1 <= step <= LastStep
    ensures NextLabel(step) == "Finish" <==> Next(step) == 0
    ensures PreviousShown(step) ==> Previous(step) > 0
  {
  }
}
