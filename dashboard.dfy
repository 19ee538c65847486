/**
 * The dashboard screen's component state and the handlers that change it:
 * the tutorial step, and the reminder list with the visibility of its modal.
 */
module Dashboard {
  import opened Optional
  import opened Expiry
  import Tutorial

  /**
   * What the two concurrent record requests deliver once joined: both lists,
   * or one failure for the whole join (either request failing, or a response
   * body that cannot be scanned).
   */
  datatype FetchOutcome = Fetched(vitamins: seq<Record>, medications: seq<Record>) | FetchFailed(message: string)

  /**
   * The state change a completed scan makes, all or nothing: a failed join
   * changes nothing; a successful one stores the notices and shows the modal
   * if there is at least one, and with none keeps the previous list and modal.
   */
  ghost predicate ScanEffect(fetch: FetchOutcome, today: int,
                             itemsBefore: seq<Notice>, modalBefore: bool,
                             itemsAfter: seq<Notice>, modalAfter: bool)
  {
    match fetch
    case FetchFailed(_) => itemsAfter == itemsBefore && modalAfter == modalBefore
    case Fetched(vitamins, medications) =>
      var found := Notices(vitamins, Vitamin, today) + Notices(medications, Medication, today);
      if found != [] then itemsAfter == found && modalAfter
      else itemsAfter == itemsBefore && modalAfter == modalBefore
  }

  /**
   * After a scan the reminder modal is visible exactly when it already was,
   * or both lists arrived and some record in either expires today or tomorrow.
   */
  lemma ModalShownIff(fetch: FetchOutcome, today: int,
                      itemsBefore: seq<Notice>, modalBefore: bool,
                      itemsAfter: seq<Notice>, modalAfter: bool)
    requires ScanEffect(fetch, today, itemsBefore, modalBefore, itemsAfter, modalAfter)
    ensures modalAfter <==>
      (modalBefore ||
       (fetch.Fetched? &&
        ((exists i :: 0 <= i < |fetch.vitamins| && ExpiresSoon(fetch.vitamins[i], today)) ||
         (exists i :: 0 <= i < |fetch.medications| && ExpiresSoon(fetch.medications[i], today)))))
  {
    if fetch.Fetched? {
      NoticesEmptyIff(fetch.vitamins, Vitamin, today);
      NoticesEmptyIff(fetch.medications, Medication, today);
    }
  }

  class DashboardState {
    var tutorialStep: int
    var expiringItems: seq<Notice>
    var showModal: bool

    /** The tutorial step always indexes the six-entry tutorial table. */
    ghost predicate Valid()
      reads this
    {
      Tutorial.InRange(tutorialStep)
    }

    /** The initial state: tour closed, no reminders, modal hidden. */
    constructor ()
      ensures Valid()
      ensures tutorialStep == 0 && expiringItems == [] && !showModal
    {
      tutorialStep := 0;
      expiringItems := [];
      showModal := false;
    }

    /** `checkExpiringItems` after the join; a failure is only logged. */
    method CheckExpiringItems(fetch: FetchOutcome, today: int)
      modifies this`expiringItems, this`showModal
      ensures ScanEffect(fetch, today, old(expiringItems), old(showModal), expiringItems, showModal)
    {
      match fetch
      case FetchFailed(_) =>
      case Fetched(vitamins, medications) =>
        var items := CollectNotices(vitamins, medications, today);
        if |items| > 0 {
          expiringItems := items;
          showModal := true;
        }
    }

    /** The effect keyed on the user id: the scan runs only for a present, non-empty id. */
    method OnUserId(userId: Option<string>, fetch: FetchOutcome, today: int)
      modifies this`expiringItems, this`showModal
      ensures userId.None? || userId.value == [] ==> expiringItems == old(expiringItems) && showModal == old(showModal)
      ensures userId.Some? && userId.value != [] ==>
        ScanEffect(fetch, today, old(expiringItems), old(showModal), expiringItems, showModal)
    {
      if userId.Some? && userId.value != [] {
        CheckExpiringItems(fetch, today);
      }
    }

    /** The modal's "Got it" button hides it and keeps the list. */
    method CloseModal()
      modifies this`showModal
      ensures !showModal
    {
      showModal := false;
    }

    method StartTutorial()
      requires Valid()
      modifies this`tutorialStep
      ensures Valid()
      ensures tutorialStep == Tutorial.Start(old(tutorialStep))
    {
      tutorialStep := Tutorial.Start(tutorialStep);
    }

    method NextStep()
      requires Valid()
      modifies this`tutorialStep
      ensures Valid()
      ensures tutorialStep == Tutorial.Next(old(tutorialStep))
    {
      tutorialStep := Tutorial.Next(tutorialStep);
    }

    method PreviousStep()
      requires Valid()
      modifies this`tutorialStep
      ensures Valid()
      ensures tutorialStep == Tutorial.Previous(old(tutorialStep))
    {
      tutorialStep := Tutorial.Previous(tutorialStep);
    }

    /**
     * The text of the dialogue bubble, rendered only while the tour is open:
     * the lookup `tutorialData[tutorialStep]` is in bounds in every valid state.
     */
    method BubbleText(partnerName: string) returns (text: Option<string>)
      requires Valid()
      ensures text.Some? <==> tutorialStep > 0
      ensures text == Tutorial.DialogText(partnerName, tutorialStep)
    {
      text := Tutorial.DialogText(partnerName, tutorialStep);
    }
  }
}
