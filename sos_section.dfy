/** The SOS section of the landing page (src/components/SOSSection.tsx):
    choosing an emergency type, opening the slide-to-confirm overlay,
    activating, and cancelling either. Each click handler is modelled with
    the precondition that its control is on screen. A completed slide
    (src/components/SlideToConfirm.tsx) schedules the confirmation 300 ms
    later and nothing cancels it; the drag gesture itself and the
    animations are not modelled. */
module SosSection {
  import opened Wrappers

  datatype EmergencyType = Cardiac | Accident | Labor | Other

  /** The id each type card carries. */
  function TypeId(t: EmergencyType): string {
    match t
    case Cardiac => "cardiac"
    case Accident => "accident"
    case Labor => "labor"
    case Other => "other"
  }

  predicate IsTypeId(id: string) {
    id == "cardiac" || id == "accident" || id == "labor" || id == "other"
  }

  /** Each card's id is one of the four, and different cards carry different
      ids, so a selection names exactly one card. */
  lemma TypeIdsDistinct(a: EmergencyType, b: EmergencyType)
    ensures IsTypeId(TypeId(a))
    ensures TypeId(a) == TypeId(b) <==> a == b
  {
  }

  /** `disabled={!selectedType}` on the activate button. */
  predicate ActivateDisabled(selectedType: Option<string>) {
    selectedType.None? || selectedType.value == ""
  }

  /** A selected card always enables the activate button. */
  lemma SelectionEnablesActivate(t: EmergencyType)
    ensures !ActivateDisabled(Some(TypeId(t)))
  {
  }

  class SosPanel {
    var selectedType: Option<string>
    var showSlideConfirm: bool
    var isActivated: bool
    /** Confirmations scheduled by completed slides that have not fired. */
    var pendingConfirms: nat

    /** The overlay is open only with a type selected and never over the
        activated view; the activated view and every pending confirmation
        have a type; a selection is a card id. */
    ghost predicate Valid()
      reads this
    {
      && (selectedType.Some? ==> IsTypeId(selectedType.value))
      && (showSlideConfirm ==> selectedType.Some? && !isActivated)
      && (isActivated ==> selectedType.Some?)
      && (pendingConfirms > 0 ==> selectedType.Some?)
    }

    constructor ()
      ensures Valid() && selectedType == None && !showSlideConfirm && !isActivated
      ensures pendingConfirms == 0
    {
      selectedType := None;
      showSlideConfirm := false;
      isActivated := false;
      pendingConfirms := 0;
    }

    /** Clicking a type card (shown before activation). */
    method SelectType(t: EmergencyType)
      requires Valid() && !isActivated
      modifies this`selectedType
      ensures Valid() && selectedType == Some(TypeId(t))
    {
      selectedType := Some(TypeId(t));
    }

    /** `handleSOS`: opens the overlay only when a type is selected. */
    method HandleSos()
      requires Valid() && !isActivated
      modifies this`showSlideConfirm
      ensures Valid()
      ensures showSlideConfirm == (old(showSlideConfirm) || !ActivateDisabled(selectedType))
    {
      if selectedType.Some? && selectedType.value != "" {
        showSlideConfirm := true;
      }
    }

    /** The slider dragged past its threshold on the open overlay: the call
        of `onConfirm` is scheduled. */
    method CompleteSlide()
      requires Valid() && showSlideConfirm
      modifies this`pendingConfirms
      ensures Valid() && pendingConfirms == old(pendingConfirms) + 1
    {
      pendingConfirms := pendingConfirms + 1;
    }

    /** `handleConfirmEmergency`, run by a scheduled confirmation: it fires
        whether or not the overlay is still open. */
    method HandleConfirmEmergency()
      requires Valid() && pendingConfirms > 0
      modifies this`showSlideConfirm, this`isActivated, this`pendingConfirms
      ensures Valid() && !showSlideConfirm && isActivated
      ensures pendingConfirms == old(pendingConfirms) - 1
    {
      showSlideConfirm := false;
      isActivated := true;
      pendingConfirms := pendingConfirms - 1;
    }

    /** `handleCancelSlide`, from the overlay: only the overlay closes. */
    method HandleCancelSlide()
      requires Valid() && showSlideConfirm
      modifies this`showSlideConfirm
      ensures Valid() && !showSlideConfirm
    {
      showSlideConfirm := false;
    }

    /** The cancel button of the activated view: back to the selection,
        which keeps the chosen type. */
    method CancelActivation()
      requires Valid() && isActivated
      modifies this`isActivated
      ensures Valid() && !isActivated
    {
      isActivated := false;
    }
  }

  /** Cancel stays clickable after the slide completes: a Cancel in the
      300 ms before the confirmation closes the overlay, and the SOS is
      activated all the same. */
  method CancelAfterSlideStillActivates(p: SosPanel)
    requires p.Valid() && p.showSlideConfirm
    modifies p
    ensures p.Valid() && p.isActivated && !p.showSlideConfirm
  {
    p.CompleteSlide();
    p.HandleCancelSlide();
    assert !p.showSlideConfirm && p.pendingConfirms > 0;
    p.HandleConfirmEmergency();
  }
}
