/** `GET` and `POST /api/card` (src/app/api/card/route.ts): the caller's
    cards with their bond counts, and creating an empty card. Both handlers
    catch every error, their own 401 and 400 included, and throw a 500. */
module CardRoute {
  import opened Base
  import opened JsValues
  import opened ApiErrors
  import opened Http
  import opened Cookies
  import opened Jwt
  import opened Session
  import opened CardModel

  /** The message of the error both handlers rethrow; note the capital S. */
  const ServerError: string := "Internal Server Error"
  const Unauthorized: string := "Unauthorized"
  const NameRequired: string := "Card name is required"
  const CardCreated: string := "Card created"

  /** `card.prizeBonds.filter((bond) => bond.status === s)`. */
  function FilterStatus(bonds: seq<Bond>, s: Status): (r: seq<Bond>)
    ensures |r| <= |bonds|
    ensures forall i :: 0 <= i < |r| ==> r[i].status == s
    ensures forall b :: b in bonds && b.status == s ==> b in r
    ensures forall b :: b in r ==> b in bonds
  {
    if bonds == [] then []
    else
      var rest := FilterStatus(bonds[1..], s);
      assert forall b :: b in bonds ==> b == bonds[0] || b in bonds[1..];
      (if bonds[0].status == s then [bonds[0]] else []) + rest
  }

  lemma {:induction false} FilterStatusAppend(a: seq<Bond>, b: seq<Bond>, s: Status)
    ensures FilterStatus(a + b, s) == FilterStatus(a, s) + FilterStatus(b, s)
  {
    if a == [] {
      assert a + b == b;
    } else {
      assert (a + b)[1..] == a[1..] + b;
      FilterStatusAppend(a[1..], b, s);
    }
  }

  /** Every bond has exactly one of the three statuses, so the three filters
      together count each bond once. */
  lemma {:induction false} StatusPartition(bonds: seq<Bond>)
    ensures |FilterStatus(bonds, Hold)| + |FilterStatus(bonds, Win)| + |FilterStatus(bonds, Sell)| == |bonds|
  {
    if bonds != [] {
      StatusPartition(bonds[1..]);
    }
  }

  /** One element of `cardsWithStats`. */
  datatype CardSummary = CardSummary(id: string, name: string, prizeBonds: seq<Bond>, totalBond: nat, totalWin: nat)

  /** `{ cards: cardsWithStats }`. */
  datatype CardsData = CardsData(cards: seq<CardSummary>)

  /** `{ card: newCard }`. */
  datatype NewCardData = NewCardData(card: Card)

  /** The summary of one card: id, name and bonds passed through, the held and
      winning bonds counted afresh (the stored `totalWin` is not read), and
      sold bonds counted in neither total. */
  function Summarise(card: Card): (s: CardSummary)
    ensures s.id == card.id && s.name == card.name && s.prizeBonds == card.prizeBonds
    ensures s.totalBond == |FilterStatus(card.prizeBonds, Hold)|
    ensures s.totalWin == |FilterStatus(card.prizeBonds, Win)|
    ensures s.totalBond + s.totalWin + |FilterStatus(card.prizeBonds, Sell)| == |card.prizeBonds|
    ensures s.totalBond + s.totalWin <= |card.prizeBonds|
  {
    StatusPartition(card.prizeBonds);
    CardSummary(card.id, card.name, card.prizeBonds,
                |FilterStatus(card.prizeBonds, Hold)|, |FilterStatus(card.prizeBonds, Win)|)
  }

  /** Changing one bond from held to won moves it from one total to the
      other and leaves their sum alone. */
  lemma HoldToWin(card: Card, i: nat)
    requires i < |card.prizeBonds| && card.prizeBonds[i].status == Hold
    ensures var card' := card.(prizeBonds := card.prizeBonds[i := card.prizeBonds[i].(status := Win)]);
            && Summarise(card').totalBond == Summarise(card).totalBond - 1
            && Summarise(card').totalWin == Summarise(card).totalWin + 1
  {
    var bs := card.prizeBonds;
    var b := bs[i];
    var b' := b.(status := Win);
    var bs' := bs[i := b'];
    assert bs == bs[..i] + [b] + bs[i + 1..];
    assert bs' == bs[..i] + [b'] + bs[i + 1..];
    forall s: Status
      ensures FilterStatus(bs, s) == FilterStatus(bs[..i], s) + FilterStatus([b], s) + FilterStatus(bs[i + 1..], s)
      ensures FilterStatus(bs', s) == FilterStatus(bs[..i], s) + FilterStatus([b'], s) + FilterStatus(bs[i + 1..], s)
    {
      FilterStatusAppend(bs[..i] + [b], bs[i + 1..], s);
      FilterStatusAppend(bs[..i], [b], s);
      FilterStatusAppend(bs[..i] + [b'], bs[i + 1..], s);
      FilterStatusAppend(bs[..i], [b'], s);
    }
  }

  /** `Card.find({ userId })`: the caller's cards, in collection order. */
  function OwnedBy(cards: seq<Card>, userId: string): (r: seq<Card>)
    ensures |r| <= |cards|
    ensures forall i :: 0 <= i < |r| ==> r[i].userId == userId
    ensures forall c :: c in cards && c.userId == userId ==> c in r
    ensures forall c :: c in r ==> c in cards
  {
    if cards == [] then []
    else
      var rest := OwnedBy(cards[1..], userId);
      assert forall c :: c in cards ==> c == cards[0] || c in cards[1..];
      (if cards[0].userId == userId then [cards[0]] else []) + rest
  }

  /** The owner filter keeps collection order: filtering a concatenation
      concatenates the filtered parts. */
  lemma {:induction false} OwnedByAppend(a: seq<Card>, b: seq<Card>, userId: string)
    ensures OwnedBy(a + b, userId) == OwnedBy(a, userId) + OwnedBy(b, userId)
  {
    if a == [] {
      assert a + b == b;
    } else {
      assert (a + b)[1..] == a[1..] + b;
      OwnedByAppend(a[1..], b, userId);
    }
  }

  /** `cards.map(...)`: one summary per card, in the same order. */
  function Summaries(cards: seq<Card>): (r: seq<CardSummary>)
    ensures |r| == |cards|
    ensures forall i :: 0 <= i < |cards| ==> r[i] == Summarise(cards[i])
  {
    seq(|cards|, i requires 0 <= i < |cards| => Summarise(cards[i]))
  }

  /** `if (!user) throw new ApiError(401, "Unauthorized")`. */
  function RequireUser(u: Option<UserPayload>): (r: Result<UserPayload>)
    ensures r.Ok? <==> u.Some?
    ensures u.Some? ==> r.value == u.value
  {
    if u.None? then Throw(NewApiError(401, Unauthorized)) else Ok(u.value)
  }

  /** The `catch` of both card handlers: whatever was thrown, a 500 is thrown. */
  function CatchCard<D>(r: Result<Response<D>>): (o: Outcome<D>)
    ensures r.Ok? <==> o.Returned?
    ensures r.Ok? ==> o.response == r.value
    ensures o.Thrown? ==> o.error == NewApiError(500, "Internal Server Error")
  {
    match r
    case Ok(resp) => Returned(resp)
    case Err(_) => Thrown(NewApiError(500, ServerError))
  }

  function GetAttempt(cookies: map<string, string>, verify: Verifier, now: int, cards: seq<Card>): Result<Response<CardsData>> {
    var user :- RequireUser(GetUserFromCookie(cookies, verify, now));
    Ok(Response(200, Success(ApiResponse(200, CardsData(Summaries(OwnedBy(cards, user.id))), None)), None))
  }

  /** `GET`: with a verified session, a 200 holding the summaries of exactly
      the caller's cards; without one, a thrown 500, never a 401. */
  function Get(cookies: map<string, string>, verify: Verifier, now: int, cards: seq<Card>): (o: Outcome<CardsData>)
    ensures o.Thrown? <==> !Verifies(RawToken(cookies), verify, now)
    ensures o.Thrown? ==> o.error == NewApiError(500, "Internal Server Error")
    ensures o.Returned? ==>
              var owner := verify(cookies[AuthCookieName], now).value.userId;
              && o.response.status == 200 && o.response.setCookie.None?
              && o.response.body.Success?
              && var out := o.response.body.payload.data.cards;
                 && |out| == |OwnedBy(cards, owner)|
                 && (forall i :: 0 <= i < |out| ==> out[i] == Summarise(OwnedBy(cards, owner)[i]))
                 && (forall s :: s in out ==> exists c :: c in cards && c.userId == owner && s == Summarise(c))
  {
    CatchCard(GetAttempt(cookies, verify, now, cards))
  }

  /** The `name` the handler accepts: a string with a non-whitespace
      character in it. */
  predicate AcceptableName(v: JsValue) {
    v.Str? && !Blank(v.s, IsJsWhitespace)
  }

  /** `!name || name.trim() === ""` followed by the call that needs a string:
      the value passes both exactly when it is an acceptable name. The empty
      string fails the first test, a blank one the second. */
  lemma NameCheck(a: Access)
    ensures (a.Value? && Truthy(a.v) && a.v.Str? && JsTrim(a.v.s) != "") <==> (a.Value? && AcceptableName(a.v))
  {
    if a.Value? && a.v.Str? {
      JsTrimEmptyIffBlank(a.v.s);
    }
  }

  function PostAttempt(cookies: map<string, string>, verify: Verifier, now: int, body: RequestBody,
                       newId: string): Result<Card> {
    var user :- RequireUser(GetUserFromCookie(cookies, verify, now));
    var json :- ReadJson(body);
    var name :- ReadProperty(json, "name");
    if !Truthy(name) then Throw(NewApiError(400, NameRequired))
    else if !name.Str? then Err(Foreign("TypeError"))
    else if JsTrim(name.s) == "" then Throw(NewApiError(400, NameRequired))
    else
      match CreateCard(newId, CardFields(Some(name.s), Some(user.id), Some(0.0), Some([])))
      case None => Err(Foreign("ValidationError"))
      case Some(card) => Ok(card)
  }

  /** `POST`: the collection after the call and the outcome. A card is created
      exactly when the session verifies, the body is JSON and its `name` is a
      string that is not all whitespace; the card keeps the untrimmed name,
      belongs to the caller, starts with no bonds and no wins, and is answered
      with a 201. Every other request throws a 500 and creates nothing. */
  function Post(cookies: map<string, string>, verify: Verifier, now: int, body: RequestBody,
                cards: seq<Card>, newId: string): (r: (seq<Card>, Outcome<NewCardData>))
    ensures r.1.Returned? <==>
              && Verifies(RawToken(cookies), verify, now)
              && body.Json? && GetProperty(body.value, "name").Value?
              && AcceptableName(GetProperty(body.value, "name").v)
    ensures r.1.Thrown? ==> r.1.error == NewApiError(500, "Internal Server Error") && r.0 == cards
    ensures r.1.Returned? ==>
              var owner := verify(cookies[AuthCookieName], now).value.userId;
              var card := Card(newId, owner, GetProperty(body.value, "name").v.s, [], 0.0);
              && r.0 == cards + [card]
              && r.1.response == Response(201, Success(ApiResponse(201, NewCardData(card), Some("Card created"))), None)
  {
    var attempt := PostAttempt(cookies, verify, now, body, newId);
    NameCheck(if body.Json? then GetProperty(body.value, "name") else TypeError);
    match attempt
    case Ok(card) =>
      (cards + [card], Returned(Response(201, Success(ApiResponse(201, NewCardData(card), Some(CardCreated))), None)))
    case Err(_) => (cards, Thrown(NewApiError(500, ServerError)))
  }

  /** Neither handler ever answers 401 or 400: without a session both throw
      the same 500. */
  lemma NoUnauthorizedStatus(cookies: map<string, string>, verify: Verifier, now: int, body: RequestBody,
                             cards: seq<Card>, newId: string)
    requires !Verifies(RawToken(cookies), verify, now)
    ensures Get(cookies, verify, now, cards) == Thrown(NewApiError(500, "Internal Server Error"))
    ensures Post(cookies, verify, now, body, cards, newId) == (cards, Thrown(NewApiError(500, "Internal Server Error")))
  {
  }

  /** A whitespace-only name is refused and creates no card. */
  lemma BlankNameRejected(cookies: map<string, string>, verify: Verifier, now: int, cards: seq<Card>,
                          newId: string)
    ensures var body := Json(Obj(map["name" := Str(" \t ")]));
            Post(cookies, verify, now, body, cards, newId).0 == cards
  {
    var v := Str(" \t ");
    assert Blank(v.s, IsJsWhitespace);
  }
}
