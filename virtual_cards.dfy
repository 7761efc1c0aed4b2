/** The virtual cards page: a list of cards that the page rewrites as a whole
    (toggle, delete, new CVV, add), a per-card "show CVV" flag, and the
    two-step card creation (required fields, then a confirmation). */
module VirtualCards {
  import opened Wrappers
  import opened Text
  import opened Amounts

  datatype Status = Active | Frozen

  datatype Card = Card(
    id: int,
    nickname: seq<char>,
    lastFour: seq<char>,
    status: Status,
    balance: Amount,
    /** `parseFloat` of the spending limit; `None` stands for NaN. */
    limit: Option<Amount>,
    expiry: seq<char>,
    cvv: seq<char>,
    linkedAccount: seq<char>,
    merchantLock: seq<char>,
    created: seq<char>)

  /** The creation form. */
  datatype NewCardForm = NewCardForm(
    nickname: seq<char>,
    spendingLimit: seq<char>,
    limitType: seq<char>,
    expiryType: seq<char>,
    customExpiry: seq<char>,
    linkedAccount: seq<char>,
    merchantLock: seq<char>,
    alerts: bool)

  const DefaultForm := NewCardForm("", "", "monthly", "12months", "", "primary", "", true)

  const InitialCards: seq<Card> := [
    Card(1, "Shopping Card", "4521", Active, 500.0, Some(1000.0), "12/25", "123",
         "Primary Checking", "Amazon, Target", "2024-01-15"),
    Card(2, "Subscription Card", "8832", Frozen, 150.0, Some(200.0), "08/25", "456",
         "Savings Account", "Netflix, Spotify", "2024-02-01"),
    Card(3, "Trial Card", "1234", Active, 25.0, Some(50.0), "07/24", "789",
         "Primary Checking", "None", "2024-06-15")
  ]

  /** `card.status === 'active' ? 'frozen' : 'active'` */
  function Toggled(s: Status): (t: Status)
    ensures t != s
  {
    if s == Active then Frozen else Active
  }

  /** The `cards.map(...)` of `toggleCardStatus`: every card with the id has
      its status flipped, every other card is kept as it is. */
  function ToggleStatusOf(cards: seq<Card>, id: int): (r: seq<Card>)
    ensures |r| == |cards|
    ensures forall i :: 0 <= i < |r| ==>
      r[i] == if cards[i].id == id then cards[i].(status := Toggled(cards[i].status)) else cards[i]
  {
    if cards == [] then []
    else
      var c := cards[0];
      [if c.id == id then c.(status := Toggled(c.status)) else c] + ToggleStatusOf(cards[1..], id)
  }

  /** Toggling the same card twice gives back the list it started from. */
  lemma ToggleTwiceRestores(cards: seq<Card>, id: int)
    ensures ToggleStatusOf(ToggleStatusOf(cards, id), id) == cards
  {
  }

  /** The `cards.map(...)` of `regenerateCVV`: only the cvv of the cards with
      the id changes. */
  function WithCvv(cards: seq<Card>, id: int, cvv: seq<char>): (r: seq<Card>)
    ensures |r| == |cards|
    ensures forall i :: 0 <= i < |r| ==>
      r[i] == if cards[i].id == id then cards[i].(cvv := cvv) else cards[i]
  {
    if cards == [] then []
    else
      var c := cards[0];
      [if c.id == id then c.(cvv := cvv) else c] + WithCvv(cards[1..], id, cvv)
  }

  /** The `cards.filter(...)` of `deleteCard`. */
  function RemoveCard(cards: seq<Card>, id: int): (r: seq<Card>)
    ensures |r| <= |cards|
    ensures forall c :: c in r <==> c in cards && c.id != id
    ensures (forall i :: 0 <= i < |cards| ==> cards[i].id != id) ==> r == cards
  {
    if cards == [] then []
    else if cards[0].id == id then RemoveCard(cards[1..], id)
    else [cards[0]] + RemoveCard(cards[1..], id)
  }

  /** Deleting works piecewise, so the cards that stay keep their order. */
  lemma {:induction false} RemoveCardAppend(a: seq<Card>, b: seq<Card>, id: int)
    ensures RemoveCard(a + b, id) == RemoveCard(a, id) + RemoveCard(b, id)
  {
    if a == [] {
      assert a + b == b;
    } else {
      assert (a + b)[1..] == a[1..] + b;
      RemoveCardAppend(a[1..], b, id);
    }
  }

  /** `cards.find(c => c.id === cardId)`: the first card with the id. */
  function FindCard(cards: seq<Card>, id: int): (r: Option<Card>)
    ensures r.None? <==> forall i :: 0 <= i < |cards| ==> cards[i].id != id
    ensures r.Some? ==> exists i :: 0 <= i < |cards| && cards[i] == r.value
                          && r.value.id == id && forall j :: 0 <= j < i ==> cards[j].id != id
  {
    if cards == [] then None
    else if cards[0].id == id then Some(cards[0])
    else
      var r := FindCard(cards[1..], id);
      if r.Some? then
        var i :| 0 <= i < |cards[1..]| && cards[1..][i] == r.value && r.value.id == id
                 && forall j :: 0 <= j < i ==> cards[1..][j].id != id;
        assert cards[i + 1] == r.value;
        r
      else r
  }

  /** `Math.floor(Math.random() * 900) + 100` for a draw `roll` in [0, 1). */
  function CvvFromRoll(roll: real): (cvv: nat)
    requires 0.0 <= roll < 1.0
    ensures 100 <= cvv <= 999
  {
    (roll * 900.0).Floor + 100
  }

  /** `Math.floor(Math.random() * 9000) + 1000` for a draw `roll` in [0, 1). */
  function LastFourFromRoll(roll: real): (n: nat)
    requires 0.0 <= roll < 1.0
    ensures 1000 <= n <= 9999
  {
    (roll * 9000.0).Floor + 1000
  }

  /** A drawn CVV is written with exactly three digits, and reads back as
      the drawn number. */
  lemma CvvStringHasThreeDigits(roll: real)
    requires 0.0 <= roll < 1.0
    ensures |DecimalString(CvvFromRoll(roll))| == 3
    ensures DecimalValue(DecimalString(CvvFromRoll(roll))) == CvvFromRoll(roll)
  {
    assert Pow10(2) == 100 && Pow10(3) == 1000;
    DecimalLengthBounds(CvvFromRoll(roll), 3);
    DecimalRoundTrip(CvvFromRoll(roll));
  }

  /** A drawn last-four is written with exactly four digits. */
  lemma LastFourHasFourDigits(roll: real)
    requires 0.0 <= roll < 1.0
    ensures |DecimalString(LastFourFromRoll(roll))| == 4
  {
    assert Pow10(3) == 1000 && Pow10(4) == 10000;
    DecimalLengthBounds(LastFourFromRoll(roll), 4);
  }

  /** `getAccountName`: the three known account keys, and "Primary Checking"
      for anything else. */
  function AccountName(key: seq<char>): (name: seq<char>)
    ensures key == "savings" ==> name == "Savings Account"
    ensures key == "business" ==> name == "Business Account"
    ensures key != "savings" && key != "business" ==> name == "Primary Checking"
  {
    if key == "primary" then "Primary Checking"
    else if key == "savings" then "Savings Account"
    else if key == "business" then "Business Account"
    else "Primary Checking"
  }

  /** `getExpiryDate`, with the clock left out: `monthsAhead(k)` is the
      "MM/YY" string of the month k months from now. */
  function ExpiryDate(expiryType: seq<char>, customExpiry: seq<char>,
                      monthsAhead: nat -> seq<char>): (r: seq<char>)
    ensures expiryType == "custom" ==> r == customExpiry
    ensures expiryType == "1month" ==> r == monthsAhead(1)
    ensures expiryType == "6months" ==> r == monthsAhead(6)
    ensures expiryType !in {"1month", "6months", "custom"} ==> r == monthsAhead(12)
  {
    if expiryType == "1month" then monthsAhead(1)
    else if expiryType == "6months" then monthsAhead(6)
    else if expiryType == "12months" then monthsAhead(12)
    else if expiryType == "custom" then customExpiry
    else monthsAhead(12)
  }

  /** `newCard.merchantLock || 'None'` */
  function MerchantLockOrNone(lock: seq<char>): (r: seq<char>)
    ensures r != ""
    ensures lock == "" ==> r == "None"
    ensures lock != "" ==> r == lock
  {
    if lock == "" then "None" else lock
  }

  /** `!prev[cardId]`: an id never shown before counts as hidden. */
  function Shown(showCVV: map<int, bool>, id: int): bool {
    id in showCVV && showCVV[id]
  }

  class VirtualCardsPage {
    var cards: seq<Card>
    var selectedCard: Option<Card>
    var showCreateForm: bool
    var showCVV: map<int, bool>
    var show2FA: bool
    /** The messages shown, oldest first; their timed removal is not modelled. */
    var notifications: seq<seq<char>>
    var newCard: NewCardForm

    constructor ()
      ensures cards == InitialCards && selectedCard == None && showCVV == map[]
      ensures !showCreateForm && !show2FA && notifications == [] && newCard == DefaultForm
    {
      cards := InitialCards;
      selectedCard := None;
      showCreateForm, show2FA := false, false;
      showCVV := map[];
      notifications := [];
      newCard := DefaultForm;
    }

    method SelectCard(card: Option<Card>)
      modifies this`selectedCard
      ensures selectedCard == card
    {
      selectedCard := card;
    }

    method EditNewCard(form: NewCardForm)
      modifies this`newCard
      ensures newCard == form
    {
      newCard := form;
    }

    method OpenCreateForm()
      modifies this`showCreateForm
      ensures showCreateForm
    {
      showCreateForm := true;
    }

    /** `toggleCardStatus`.  The notice names the card found before the
        change; with no card of that id the lookup of its nickname fails, so
        no notice is added (`found` is false). */
    method ToggleCardStatus(cardId: int) returns (found: bool)
      modifies this`cards, this`notifications
      ensures cards == ToggleStatusOf(old(cards), cardId)
      ensures found <==> FindCard(old(cards), cardId).Some?
      ensures found ==>
        var card := FindCard(old(cards), cardId).value;
        notifications == old(notifications)
          + ["Card " + card.nickname + " " + (if card.status == Active then "frozen" else "activated")]
      ensures !found ==> notifications == old(notifications) && cards == old(cards)
    {
      var before := cards;
      cards := ToggleStatusOf(cards, cardId);
      var card := FindCard(before, cardId);
      if card.None? {
        assert cards == before;
        return false;
      }
      notifications := notifications
        + ["Card " + card.value.nickname + " " + (if card.value.status == Active then "frozen" else "activated")];
      found := true;
    }

    /** `deleteCard` */
    method DeleteCard(cardId: int)
      modifies this`cards, this`selectedCard, this`notifications
      ensures cards == RemoveCard(old(cards), cardId)
      ensures selectedCard == None
      ensures notifications == old(notifications) + ["Card deleted successfully"]
    {
      cards := RemoveCard(cards, cardId);
      selectedCard := None;
      notifications := notifications + ["Card deleted successfully"];
    }

    /** `regenerateCVV`, with the draw of `Math.random()` given as `roll`. */
    method RegenerateCVV(cardId: int, roll: real)
      requires 0.0 <= roll < 1.0
      modifies this`cards, this`notifications
      ensures cards == WithCvv(old(cards), cardId, DecimalString(CvvFromRoll(roll)))
      ensures forall i :: 0 <= i < |cards| && cards[i].id == cardId ==> |cards[i].cvv| == 3
      ensures notifications == old(notifications) + ["CVV regenerated successfully"]
    {
      var newCVV := CvvFromRoll(roll);
      CvvStringHasThreeDigits(roll);
      cards := WithCvv(cards, cardId, DecimalString(newCVV));
      notifications := notifications + ["CVV regenerated successfully"];
    }

    /** `toggleCVV` */
    method ToggleCVV(cardId: int)
      modifies this`showCVV
      ensures Shown(showCVV, cardId) == !Shown(old(showCVV), cardId)
      ensures forall id :: id != cardId ==> (id in showCVV <==> id in old(showCVV))
      ensures forall id :: id != cardId && id in showCVV ==> showCVV[id] == old(showCVV)[id]
      ensures cardId in showCVV
    {
      showCVV := showCVV[cardId := !Shown(showCVV, cardId)];
    }

    /** `createNewCard`: open the confirmation step only when the nickname
        and the spending limit are filled in. */
    method CreateNewCard()
      modifies this`show2FA, this`notifications
      ensures newCard.nickname == "" || newCard.spendingLimit == "" ==>
        show2FA == old(show2FA)
        && notifications == old(notifications) + ["Please fill in all required fields"]
      ensures newCard.nickname != "" && newCard.spendingLimit != "" ==>
        show2FA && notifications == old(notifications)
    {
      if newCard.nickname == "" || newCard.spendingLimit == "" {
        notifications := notifications + ["Please fill in all required fields"];
        return;
      }
      show2FA := true;
    }

    /** `confirm2FA`: append the new card and reset the form.  `now` is
        `Date.now()`, the two rolls are the draws of `Math.random()`,
        `monthsAhead` stands for the clock and `today` for the current date. */
    method Confirm2FA(now: int, lastFourRoll: real, cvvRoll: real,
                      monthsAhead: nat -> seq<char>, today: seq<char>, parse: Parser)
      requires 0.0 <= lastFourRoll < 1.0 && 0.0 <= cvvRoll < 1.0
      modifies this`cards, this`showCreateForm, this`show2FA, this`newCard, this`notifications
      ensures |cards| == |old(cards)| + 1 && cards[..|old(cards)|] == old(cards)
      ensures var card := cards[|old(cards)|];
        && card.id == now
        && card.nickname == old(newCard).nickname
        && card.status == Active && card.balance == 0.0
        && card.limit == parse(old(newCard).spendingLimit)
        && card.expiry == ExpiryDate(old(newCard).expiryType, old(newCard).customExpiry, monthsAhead)
        && card.linkedAccount == AccountName(old(newCard).linkedAccount)
        && card.merchantLock == MerchantLockOrNone(old(newCard).merchantLock)
        && card.created == today
        && card.lastFour == DecimalString(LastFourFromRoll(lastFourRoll))
        && card.cvv == DecimalString(CvvFromRoll(cvvRoll))
        && |card.lastFour| == 4 && |card.cvv| == 3
      ensures !showCreateForm && !show2FA && newCard == DefaultForm
      ensures notifications == old(notifications) + ["Virtual card created successfully"]
    {
      LastFourHasFourDigits(lastFourRoll);
      CvvStringHasThreeDigits(cvvRoll);
      var card := Card(
        now,
        newCard.nickname,
        DecimalString(LastFourFromRoll(lastFourRoll)),
        Active,
        0.0,
        parse(newCard.spendingLimit),
        ExpiryDate(newCard.expiryType, newCard.customExpiry, monthsAhead),
        DecimalString(CvvFromRoll(cvvRoll)),
        AccountName(newCard.linkedAccount),
        MerchantLockOrNone(newCard.merchantLock),
        today);
      cards := cards + [card];
      showCreateForm := false;
      show2FA := false;
      newCard := DefaultForm;
      notifications := notifications + ["Virtual card created successfully"];
    }
  }
}
