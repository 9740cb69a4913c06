/**
 The analysis log screen: an empty-state message for an empty log, otherwise
 one card per record in list order, each with up to three credit badges, a
 click target that selects the record and a delete button that deletes it.
 */
module LogScreen {

  import opened Wrappers
  import opened Records
  import opened AppState

  // ---------------------------------------------------------------------
  // Badges
  // ---------------------------------------------------------------------

  /** The three kinds of badge a card can carry, in display order. */
  datatype Badge = ProducerBadge(text: string) | GenreBadge(text: string) | VocalistBadge(text: string)

  /** A badge's position among the three kinds. */
  function BadgeOrder(b: Badge): nat {
    match b
    case ProducerBadge(_) => 0
    case GenreBadge(_) => 1
    case VocalistBadge(_) => 2
  }

  /** `metadata.vocalists?.[0]`: the first vocalist, when the list exists and is not empty. */
  function FirstVocalist(m: Metadata): Option<string> {
    if m.vocalists.Some? && m.vocalists.value != [] then Some(m.vocalists.value[0]) else None
  }

  /** The badges of a card: producer, genre and first vocalist, each when truthy. */
  function Badges(metadata: Option<Metadata>): (badges: seq<Badge>)
    ensures metadata.None? ==> badges == []
    ensures forall t :: ProducerBadge(t) in badges <==>
      metadata.Some? && metadata.value.producer == Some(t) && t != ""
    ensures forall t :: GenreBadge(t) in badges <==>
      metadata.Some? && metadata.value.genre == Some(t) && t != ""
    ensures forall t :: VocalistBadge(t) in badges <==>
      metadata.Some? && metadata.value.vocalists.Some? && metadata.value.vocalists.value != []
      && metadata.value.vocalists.value[0] == t && t != ""
    ensures forall i, j :: 0 <= i < j < |badges| ==> BadgeOrder(badges[i]) < BadgeOrder(badges[j])
  {
    match metadata
    case None => []
    case Some(m) =>
      (if Truthy(m.producer) then [ProducerBadge(m.producer.value)] else [])
      + (if Truthy(m.genre) then [GenreBadge(m.genre.value)] else [])
      + (if Truthy(FirstVocalist(m)) then [VocalistBadge(FirstVocalist(m).value)] else [])
  }

  // ---------------------------------------------------------------------
  // Cards
  // ---------------------------------------------------------------------

  /** What one card shows: the file name, the upload date and the badges. */
  datatype Card = Card(id: string, fileName: string, uploadDate: string, badges: seq<Badge>)

  function CardOf(f: UploadedFile): Card {
    Card(f.id, f.file.name, f.uploadDate, Badges(f.metadata))
  }

  /** `uploadedFiles.map(...)`. */
  function Cards(files: seq<UploadedFile>): (cards: seq<Card>)
    ensures |cards| == |files|
    ensures forall i :: 0 <= i < |files| ==> cards[i] == CardOf(files[i])
  {
    if files == [] then [] else [CardOf(files[0])] + Cards(files[1..])
  }

  /** The list area: the empty-state message or the cards. */
  datatype View = EmptyState | CardList(cards: seq<Card>)

  /** `uploadedFiles.length === 0 ? ... : ...`. */
  function Render(files: seq<UploadedFile>): (view: View)
    ensures view.EmptyState? <==> files == []
    ensures view.CardList? ==> view.cards == Cards(files)
  {
    if |files| == 0 then EmptyState else CardList(Cards(files))
  }

  /** Each record has its own card, and the cards follow the records' order. */
  lemma OneCardPerRecord(files: seq<UploadedFile>)
    requires files != []
    ensures var cards := Render(files).cards;
      |cards| == |files|
      && forall i :: 0 <= i < |files| ==> cards[i].id == files[i].id && cards[i].fileName == files[i].file.name
  {
  }

  // ---------------------------------------------------------------------
  // Clicks
  // ---------------------------------------------------------------------

  /** A click on the card at a position, or on that card's delete button. */
  datatype Click = CardClick(index: nat) | DeleteClick(index: nat)

  /** The callbacks a click reaches, in the order they run. */
  datatype Callback = Delete(id: string) | Select(record: UploadedFile)

  /** The card's own handler, `onClick={() => onSelectFile(uploadedFile)}`. */
  function CardHandler(f: UploadedFile): seq<Callback> {
    [Select(f)]
  }

  /**
   The delete button's handler: it calls `onDeleteFile` and stops the event
   from bubbling up to the card (the second component).
   */
  function DeleteHandler(f: UploadedFile): (seq<Callback>, bool) {
    ([Delete(f.id)], true)
  }

  /**
   A click runs the handler of the element hit; a click on the delete
   button then bubbles to the card unless propagation was stopped.
   */
  function Dispatch(files: seq<UploadedFile>, click: Click): (calls: seq<Callback>)
    requires click.index < |files|
    ensures click.DeleteClick? ==> calls == [Delete(files[click.index].id)]
    ensures click.CardClick? ==> calls == [Select(files[click.index])]
  {
    var f := files[click.index];
    match click
    case CardClick(_) => CardHandler(f)
    case DeleteClick(_) =>
      var (calls, stopped) := DeleteHandler(f);
      calls + (if stopped then [] else CardHandler(f))
  }

  /**
   Deleting from a card removes that card's record, and every other record
   with the same id, from the shell's list.
   */
  lemma DeleteRemovesClickedRecord(files: seq<UploadedFile>, i: nat)
    requires i < |files|
    ensures var calls := Dispatch(files, DeleteClick(i));
      |calls| == 1 && calls[0].Delete?
      && files[i] !in RemoveId(files, calls[0].id)
      && forall f :: f in RemoveId(files, calls[0].id) ==> f.id != files[i].id
  {
    RemoveIdMembers(files, files[i].id);
  }
}
