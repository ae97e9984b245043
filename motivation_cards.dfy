/** The motivation hub: a list of cards, one current card shown large, an editor for its text, and a
    rotation through the unpinned cards. */
module MotivationCards {
  import opened Wrappers
  import opened Seqs

  datatype Category = Quote | Personal | GoalCategory

  datatype Card = Card(id: string, title: string, content: string, category: Category, isPinned: bool)

  /** The fixed pool `getRandomQuote` draws from. */
  const MotivationalQuotes: seq<string> := [
    "Success is not final, failure is not fatal: it is the courage to continue that counts. - Winston Churchill",
    "The only way to do great work is to love what you do. - Steve Jobs",
    "Innovation distinguishes between a leader and a follower. - Steve Jobs",
    "Your limitation\U{00E2}\U{20AC}\U{201D}it's only your imagination.",
    "Push yourself, because no one else is going to do it for you.",
    "Great things never come from comfort zones.",
    "Dream it. Wish it. Do it.",
    "Success doesn't just find you. You have to go out and get it."
  ]

  /** The cards the component starts with. */
  const DefaultCards: seq<Card> := [
    Card("1", "Daily Inspiration",
         "The way to get started is to quit talking and begin doing. - Walt Disney", Quote, false),
    Card("2", "Personal Reminder",
         "I am working towards my Computer Science degree to build innovative software that helps people.",
         Personal, true)
  ]

  function IsNotQuote(c: Card): bool
  {
    c.category != Quote
  }

  function IsUnpinned(c: Card): bool
  {
    !c.isPinned
  }

  /** The card list after `getRandomQuote`: quote cards replaced by the new one, at the end. */
  function WithNewQuote(cards: seq<Card>, newCard: Card): seq<Card>
  {
    Filter(cards, IsNotQuote) + [newCard]
  }

  /** After a new quote there is exactly one quote card, the last one, and the other cards are the
      non-quote cards of before, in their order. */
  lemma {:induction false} NewQuoteFacts(cards: seq<Card>, newCard: Card)
    requires newCard.category == Quote
    ensures var r := WithNewQuote(cards, newCard);
      && |Filter(r, IsNotQuote)| == |r| - 1
      && r[|r| - 1] == newCard
      && Filter(r, IsNotQuote) == Filter(cards, IsNotQuote)
      && r[..|r| - 1] == Filter(cards, IsNotQuote)
  {
    var kept := Filter(cards, IsNotQuote);
    FilterAppend(kept, [newCard], IsNotQuote);
    FilterAll(kept, IsNotQuote);
    assert WithNewQuote(cards, newCard)[..|kept|] == kept;
  }

  /** `togglePin`: the cards with the id flip their pin, nothing else changes. */
  function TogglePinned(cards: seq<Card>, id: string): (r: seq<Card>)
    ensures |r| == |cards|
    ensures forall i :: 0 <= i < |cards| ==>
      r[i] == cards[i].(isPinned := r[i].isPinned)
      && (r[i].isPinned != cards[i].isPinned <==> cards[i].id == id)
  {
    seq(|cards|, i requires 0 <= i < |cards| =>
      if cards[i].id == id then cards[i].(isPinned := !cards[i].isPinned) else cards[i])
  }

  lemma TogglePinTwice(cards: seq<Card>, id: string)
    ensures TogglePinned(TogglePinned(cards, id), id) == cards
  {
    var r := TogglePinned(TogglePinned(cards, id), id);
    assert forall i :: 0 <= i < |cards| ==> r[i] == cards[i];
  }

  /** The card list after `saveEdit`: the cards with the id get the edited text. */
  function WithContent(cards: seq<Card>, id: string, content: string): (r: seq<Card>)
    ensures |r| == |cards|
    ensures forall i :: 0 <= i < |cards| ==>
      r[i] == (if cards[i].id == id then cards[i].(content := content) else cards[i])
  {
    seq(|cards|, i requires 0 <= i < |cards| =>
      if cards[i].id == id then cards[i].(content := content) else cards[i])
  }

  /** `cards.find(card => card.isPinned) || cards[0] || null`. */
  function InitialCard(cards: seq<Card>): (r: Option<Card>)
    ensures r.None? <==> cards == []
    ensures (exists i :: 0 <= i < |cards| && cards[i].isPinned) ==>
      r.Some? && r.value.isPinned
      && exists i :: 0 <= i < |cards| && cards[i] == r.value && forall j :: 0 <= j < i ==> !cards[j].isPinned
    ensures cards != [] && (forall i :: 0 <= i < |cards| ==> !cards[i].isPinned) ==> r == Some(cards[0])
  {
    if cards == [] then None
    else match FirstPinned(cards)
      case Some(k) => Some(cards[k])
      case None => Some(cards[0])
  }

  function FirstPinned(cards: seq<Card>): (r: Option<nat>)
    ensures r.Some? ==>
      r.value < |cards| && cards[r.value].isPinned && forall j :: 0 <= j < r.value ==> !cards[j].isPinned
    ensures r.None? ==> forall i :: 0 <= i < |cards| ==> !cards[i].isPinned
  {
    if cards == [] then None
    else if cards[0].isPinned then Some(0)
    else match FirstPinned(cards[1..])
      case None => None
      case Some(k) => Some(k + 1)
  }

  /** `findIndex` by id: the first position holding a card with the id, or -1. */
  function IndexOfId(cards: seq<Card>, id: string): (i: int)
    ensures -1 <= i < |cards|
    ensures i >= 0 ==> cards[i].id == id && forall j :: 0 <= j < i ==> cards[j].id != id
    ensures i == -1 ==> forall j :: 0 <= j < |cards| ==> cards[j].id != id
  {
    if cards == [] then -1
    else if cards[0].id == id then 0
    else
      var k := IndexOfId(cards[1..], id);
      if k == -1 then -1 else k + 1
  }

  /** `(currentIndex + 1) % unpinned.length`: the position after `current`'s, wrapping around, or
      0 when `current` is not among the unpinned cards. */
  function NextIndex(u: seq<Card>, current: Option<Card>): (k: nat)
    requires |u| > 1
    ensures k < |u|
    ensures current.Some? ==> var i := IndexOfId(u, current.value.id);
      (0 <= i < |u| - 1 ==> k == i + 1) && (i == |u| - 1 || i == -1 ==> k == 0)
    ensures current.None? ==> k == 0
  {
    var i := if current.Some? then IndexOfId(u, current.value.id) else -1;
    ModWrap(i + 1, |u|);
    (i + 1) % |u|
  }

  lemma ModWrap(x: int, n: int)
    requires 0 < n && 0 <= x <= n
    ensures x % n == if x == n then 0 else x
  {
  }

  /** One step of the rotation over the unpinned cards, or None when it changes nothing: it runs only
      while the current card is not pinned, and only with more than one unpinned card. */
  function RotationTarget(cards: seq<Card>, current: Option<Card>): (r: Option<Card>)
    ensures r.Some? <==> |Filter(cards, IsUnpinned)| > 1 && (current.None? || !current.value.isPinned)
    ensures r.Some? ==> r.value in cards && !r.value.isPinned
    ensures r.Some? ==> var u := Filter(cards, IsUnpinned); r.value == u[NextIndex(u, current)]
  {
    if current.Some? && current.value.isPinned then None
    else
      var u := Filter(cards, IsUnpinned);
      if |u| <= 1 then None else Some(u[NextIndex(u, current)])
  }

  /** The hub component's state. */
  class Hub {
    var cards: seq<Card>
    var currentCard: Option<Card>
    var isEditing: bool
    var editContent: string

    /** Mounting: the default cards, and the initial-card effect picks the current card. */
    constructor ()
      ensures cards == DefaultCards && currentCard == Some(DefaultCards[1]) && !isEditing && editContent == ""
    {
      cards := DefaultCards;
      currentCard := InitialCard(DefaultCards);
      isEditing := false;
      editContent := "";
    }

    /** `getRandomQuote`, with `Math.floor(Math.random() * 8)` and `Date.now()` supplied. */
    method GetRandomQuote(quoteIndex: nat, id: string)
      requires quoteIndex < |MotivationalQuotes|
      modifies this`cards, this`currentCard
      ensures currentCard == Some(Card(id, "Daily Inspiration", MotivationalQuotes[quoteIndex], Quote, false))
      ensures cards == WithNewQuote(old(cards), currentCard.value)
    {
      var newCard := Card(id, "Daily Inspiration", MotivationalQuotes[quoteIndex], Quote, false);
      cards := WithNewQuote(cards, newCard);
      currentCard := Some(newCard);
    }

    /** `togglePin`. The current card is a snapshot and keeps its old pin flag. */
    method TogglePin(id: string)
      modifies this`cards
      ensures cards == TogglePinned(old(cards), id)
    {
      cards := TogglePinned(cards, id);
    }

    method StartEdit(card: Card)
      modifies this`isEditing, this`editContent, this`currentCard
      ensures isEditing && editContent == card.content && currentCard == Some(card)
    {
      isEditing := true;
      editContent := card.content;
      currentCard := Some(card);
    }

    /** `saveEdit`: write the buffer into the current card's entries, then stop editing. */
    method SaveEdit()
      modifies this`cards, this`currentCard, this`isEditing
      ensures !isEditing
      ensures old(currentCard).None? ==> cards == old(cards) && currentCard == old(currentCard)
      ensures old(currentCard).Some? ==>
        cards == WithContent(old(cards), old(currentCard).value.id, editContent)
        && currentCard == Some(old(currentCard).value.(content := editContent))
    {
      if currentCard.Some? {
        cards := WithContent(cards, currentCard.value.id, editContent);
        currentCard := Some(currentCard.value.(content := editContent));
      }
      isEditing := false;
    }

    method CancelEdit()
      modifies this`isEditing, this`editContent
      ensures !isEditing && editContent == ""
    {
      isEditing := false;
      editContent := "";
    }

    /** `addPersonalCard`, with `Date.now()` supplied: append an unpinned personal card and edit it. */
    method AddPersonalCard(id: string)
      modifies this
      ensures var c := Card(id, "Personal Motivation", "Add your personal motivation here...", Personal, false);
        cards == old(cards) + [c] && currentCard == Some(c) && isEditing && editContent == c.content
    {
      var newCard := Card(id, "Personal Motivation", "Add your personal motivation here...", Personal, false);
      cards := cards + [newCard];
      StartEdit(newCard);
    }

    /** Clicking a card in the management grid makes it current. */
    method SelectCard(card: Card)
      modifies this`currentCard
      ensures currentCard == Some(card)
    {
      currentCard := Some(card);
    }

    /** One firing of the 30-second rotation interval. */
    method Rotate()
      modifies this`currentCard
      ensures var t := RotationTarget(cards, old(currentCard));
        currentCard == if t.Some? then t else old(currentCard)
    {
      if currentCard.None? || !currentCard.value.isPinned {
        var unpinned := Filter(cards, IsUnpinned);
        if |unpinned| > 1 {
          var currentIndex := if currentCard.Some? then IndexOfId(unpinned, currentCard.value.id) else -1;
          var nextIndex := (currentIndex + 1) % |unpinned|;
          assert nextIndex == NextIndex(unpinned, currentCard);
          currentCard := Some(unpinned[nextIndex]);
        }
      }
    }
  }
}
