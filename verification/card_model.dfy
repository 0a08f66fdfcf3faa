/** The card and prize-bond documents (src/models/card.ts): their fields, the
    closed bond status, and what creating a document checks and fills in. */
module CardModel {
  import opened Base

  /** The three values the status enum admits. */
  datatype Status = Hold | Win | Sell

  function StatusName(s: Status): string {
    match s
    case Hold => "hold"
    case Win => "win"
    case Sell => "sell"
  }

  /** The enum validator: a status string is accepted exactly when it is one
      of the three names. */
  function ParseStatus(x: string): (s: Option<Status>)
    ensures s.Some? <==> x == "hold" || x == "win" || x == "sell"
  {
    if x == "hold" then Some(Hold)
    else if x == "win" then Some(Win)
    else if x == "sell" then Some(Sell)
    else None
  }

  lemma StatusRoundTrip(s: Status)
    ensures ParseStatus(StatusName(s)) == Some(s)
  {
  }

  lemma StatusNameRoundTrip(x: string)
    ensures ParseStatus(x).Some? ==> StatusName(ParseStatus(x).value) == x
  {
  }

  /** `IPrizeBond`; a date is its time value in milliseconds. */
  datatype Bond = Bond(number: string, purchaseDate: int, status: Status)

  /** `ICard` (timestamps are left out). */
  datatype Card = Card(id: string, userId: string, name: string, prizeBonds: seq<Bond>, totalWin: real)

  /** The fields handed to mongoose for a bond; `None` is a missing field. */
  datatype BondFields = BondFields(number: Option<string>, purchaseDate: Option<int>, status: Option<string>)

  /** The fields handed to `Card.create`; `None` is a missing field. */
  datatype CardFields = CardFields(
    name: Option<string>,
    userId: Option<string>,
    totalWin: Option<real>,
    prizeBonds: Option<seq<BondFields>>)

  /** Mongoose's `required` check for a String path: present and not empty. */
  predicate RequiredString(v: Option<string>) {
    v.Some? && v.value != ""
  }

  /** Validating a bond subdocument: all three fields are required and the
      status must be one of the enum values. */
  function CastBond(f: BondFields): (b: Option<Bond>)
    ensures b.Some? <==> RequiredString(f.number) && f.purchaseDate.Some? && f.status.Some?
                         && ParseStatus(f.status.value).Some?
    ensures b.Some? ==> b.value.number == f.number.value && b.value.purchaseDate == f.purchaseDate.value
                        && StatusName(b.value.status) == f.status.value
  {
    if !RequiredString(f.number) || f.purchaseDate.None? || f.status.None? then None
    else
      match ParseStatus(f.status.value)
      case None => None
      case Some(s) => Some(Bond(f.number.value, f.purchaseDate.value, s))
  }

  /** Validating the bond array: it is accepted when every element is, and
      then keeps their number and order. */
  function CastBonds(fs: seq<BondFields>): (bs: Option<seq<Bond>>)
    ensures bs.Some? <==> forall i :: 0 <= i < |fs| ==> CastBond(fs[i]).Some?
    ensures bs.Some? ==> |bs.value| == |fs| && forall i :: 0 <= i < |fs| ==> bs.value[i] == CastBond(fs[i]).value
  {
    if fs == [] then Some([])
    else
      match CastBond(fs[0])
      case None => None
      case Some(b) =>
        match CastBonds(fs[1..])
        case None =>
          assert !CastBond(fs[1..][0]).Some? || exists i :: 0 <= i < |fs[1..]| && !CastBond(fs[1..][i]).Some?;
          None
        case Some(rest) => Some([b] + rest)
  }

  /** `Card.create(fields)` with the document id `id`: the name and the owner
      are required, `totalWin` defaults to 0, `prizeBonds` to the empty list,
      and every bond must validate. `None` stands for the ValidationError. */
  function CreateCard(id: string, f: CardFields): (c: Option<Card>)
    ensures c.Some? <==> RequiredString(f.name) && f.userId.Some?
                         && (f.prizeBonds.Some? ==> CastBonds(f.prizeBonds.value).Some?)
    ensures c.Some? ==> && c.value.id == id && c.value.name == f.name.value && c.value.userId == f.userId.value
    ensures c.Some? && f.totalWin.None? ==> c.value.totalWin == 0.0
    ensures c.Some? && f.prizeBonds.None? ==> c.value.prizeBonds == []
    ensures c.Some? && f.prizeBonds.Some? ==> c.value.prizeBonds == CastBonds(f.prizeBonds.value).value
    ensures c.Some? && f.totalWin.Some? ==> c.value.totalWin == f.totalWin.value
  {
    if !RequiredString(f.name) || f.userId.None? then None
    else
      var bonds := if f.prizeBonds.Some? then CastBonds(f.prizeBonds.value) else Some([]);
      match bonds
      case None => None
      case Some(bs) =>
        Some(Card(id, f.userId.value, f.name.value, bs, if f.totalWin.Some? then f.totalWin.value else 0.0))
  }

  /** Nothing makes bond numbers unique within a card: a card holding the same
      number twice is created. */
  lemma DuplicateNumbersAccepted(id: string, owner: string, n: string, d: int)
    requires owner != "" && n != ""
    ensures var f := BondFields(Some(n), Some(d), Some("hold"));
            var c := CreateCard(id, CardFields(Some("savings"), Some(owner), None, Some([f, f])));
            c.Some? && |c.value.prizeBonds| == 2 && c.value.prizeBonds[0].number == c.value.prizeBonds[1].number
  {
    var f := BondFields(Some(n), Some(d), Some("hold"));
    assert CastBond(f) == Some(Bond(n, d, Hold));
    var fs := [f, f];
    assert fs[0] == f && fs[1] == f;
    assert CastBonds(fs).Some?;
  }
}
