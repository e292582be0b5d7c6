/**
 * The feed grid and its lightbox: which cards are blurred, which badge each card carries, what a
 * click on a card does, and how the reveal set changes when a sensitive photo is revealed or
 * hidden again.
 */
module ImageFeed {
  import opened Wrappers
  import opened FeedTypes

  /** A card is blurred when it is BLURRED and its id has not been revealed. */
  predicate IsBlurred(image: FeedItem, revealed: set<string>)
  {
    image.status == Some(BLURRED) && image.id !in revealed
  }

  /** The badge of a card: none without a status, else its caption, which may be empty. */
  datatype Badge = NoBadge | StatusBadge(caption: Option<string>)

  function CardBadge(image: FeedItem, revealed: set<string>): (b: Badge)
    ensures b.NoBadge? <==> !Truthy(image.status)
    ensures b == StatusBadge(Some("Sensitive")) <==> IsBlurred(image, revealed)
    ensures b == StatusBadge(Some("Approved")) <==> image.status == Some(APPROVED)
    ensures b == StatusBadge(Some("Processing")) <==> image.status == Some(PROCESSING)
  {
    if !Truthy(image.status) then NoBadge
    else if image.status == Some(PROCESSING) then StatusBadge(Some("Processing"))
    else if image.status == Some(APPROVED) then StatusBadge(Some("Approved"))
    else if IsBlurred(image, revealed) then StatusBadge(Some("Sensitive"))
    else StatusBadge(None)
  }

  /** Revealing adds the id to the set. */
  function RevealId(revealed: set<string>, id: string): (r: set<string>)
    ensures forall x :: x in r <==> x in revealed || x == id
  {
    revealed + {id}
  }

  /** Hiding removes the id from the set. */
  function HideId(revealed: set<string>, id: string): (r: set<string>)
    ensures forall x :: x in r <==> x in revealed && x != id
  {
    revealed - {id}
  }

  /** A card that is not BLURRED is never blurred and never carries the Sensitive caption. */
  lemma OnlyBlurredStatusBlurs(image: FeedItem, revealed: set<string>)
    requires image.status != Some(BLURRED)
    ensures !IsBlurred(image, revealed)
    ensures CardBadge(image, revealed) != StatusBadge(Some("Sensitive"))
  {
  }

  /** Reveal then Hide blurs the photo again; revealing twice is revealing once. */
  lemma RevealThenHide(image: FeedItem, revealed: set<string>)
    ensures IsBlurred(image, HideId(RevealId(revealed, image.id), image.id)) <==> image.status == Some(BLURRED)
    ensures image.id !in revealed ==> HideId(RevealId(revealed, image.id), image.id) == revealed
    ensures RevealId(RevealId(revealed, image.id), image.id) == RevealId(revealed, image.id)
    ensures HideId(HideId(revealed, image.id), image.id) == HideId(revealed, image.id)
    ensures !IsBlurred(image, RevealId(revealed, image.id))
  {
  }

  /** Reveal and Hide leave the blur state of every card with another id as it was. */
  lemma OtherCardsUnaffected(other: FeedItem, revealed: set<string>, id: string)
    requires other.id != id
    ensures IsBlurred(other, RevealId(revealed, id)) == IsBlurred(other, revealed)
    ensures IsBlurred(other, HideId(revealed, id)) == IsBlurred(other, revealed)
  {
  }

  /** The feed's view state: the photo in the lightbox, if any, and the revealed ids. */
  class FeedView {
    var lightbox: Option<FeedItem>
    var revealed: set<string>

    constructor ()
      ensures lightbox == None && revealed == {}
    {
      lightbox := None;
      revealed := {};
    }

    /** The photo in the lightbox is shown blurred. */
    predicate LightboxBlurred()
      reads this
    {
      lightbox.Some? && IsBlurred(lightbox.value, revealed)
    }

    /** A click on a card: a blurred card does nothing, any other opens the lightbox on it. */
    method CardClick(image: FeedItem)
      modifies this
      ensures IsBlurred(image, revealed) ==> lightbox == old(lightbox)
      ensures !IsBlurred(image, revealed) ==> lightbox == Some(image) && !LightboxBlurred()
      ensures revealed == old(revealed)
    {
      if image.status == Some(BLURRED) && image.id !in revealed {
        return;
      }
      lightbox := Some(image);
    }

    /** "See Photo" on a blurred card: the lightbox opens on it, still blurred. */
    method SeePhoto(image: FeedItem)
      requires IsBlurred(image, revealed)
      modifies this
      ensures lightbox == Some(image) && LightboxBlurred()
      ensures revealed == old(revealed)
    {
      lightbox := Some(image);
    }

    /** "Reveal Photo" in the lightbox: the shown photo's id joins the revealed set. */
    method Reveal()
      requires LightboxBlurred()
      modifies this
      ensures lightbox == old(lightbox)
      ensures revealed == RevealId(old(revealed), old(lightbox).value.id)
      ensures !LightboxBlurred()
    {
      revealed := revealed + {lightbox.value.id};
    }

    /** "Hide" on a revealed sensitive photo: its id leaves the set and it is blurred again. */
    method Hide()
      requires lightbox.Some? && lightbox.value.status == Some(BLURRED) && lightbox.value.id in revealed
      modifies this
      ensures lightbox == old(lightbox)
      ensures revealed == HideId(old(revealed), old(lightbox).value.id)
      ensures LightboxBlurred()
    {
      revealed := revealed - {lightbox.value.id};
    }

    /** A click on the overlay or the close button empties the lightbox. */
    method CloseLightbox()
      modifies this
      ensures lightbox == None
      ensures revealed == old(revealed)
    {
      lightbox := None;
    }
  }
}
