/** The canonical texts of the requests that idempotency records fingerprint, and what a
    replay under a used key then means. */
module RequestForms {
  import opened Text
  import opened Decimals
  import opened CanonicalJson
  import opened WireForms
  import opened Domain
  import opened Coordination
  import opened Machine
  import opened Guarantees
  import opened IdempotentReplay

  // ------------------------------------------------------------- leaf texts

  /** Digits with a point after the first, as in scientific notation. */
  function Mantissa(digits: string): string
    requires digits != ""
  {
    if |digits| == 1 then digits else digits[..1] + "." + digits[1..]
  }

  /** `str(decimal)`: fixed-point, or scientific when the exponent is positive. */
  function DecimalStr(d: Decimal): string {
    if d.exp <= 0 then FixedText(d)
    else
      var digits := NatText(Abs(d.coef));
      (if d.coef < 0 then "-" else "") + Mantissa(digits) + "E" + ("+" + NatText(d.exp + |digits| - 1))
  }

  /** A datetime with its own offset. */
  function ZonedText(t: Zoned): string { IntText(t.instant) + "T" + IntText(t.offset) }

  /** A text splits in one way at the first occurrence of a character. */
  lemma SplitOnce(c: char, a: string, x: string, b: string, y: string)
    requires c !in a && c !in b && a + [c] + x == b + [c] + y
    ensures a == b && x == y
  {
    var s := a + [c] + x;
    assert s[|a|] == c && s[|b|] == c;
    assert forall i :: 0 <= i < |a| ==> s[i] == a[i];
    assert forall i :: 0 <= i < |b| ==> s[i] == b[i];
    assert |a| == |b|;
    assert a == s[..|a|] && b == s[..|b|];
    assert x == s[|a| + 1..] && y == s[|b| + 1..];
  }

  /** Digits, points and signs. */
  predicate NumberChars(s: string) { forall i :: 0 <= i < |s| ==> IsDigit(s[i]) || s[i] == '.' || s[i] == '-' }

  lemma IntTextChars(n: int)
    ensures NumberChars(IntText(n))
  {
  }

  lemma FixedTextChars(d: Decimal)
    ensures NumberChars(FixedText(d))
  {
    var c := Abs(d.coef);
    if d.exp < 0 {
      var s := Padded(c, 0 - d.exp + 1);
      hide Padded;
      assert NumberChars(FixedDigits(c, d.exp));
    }
    hide FixedDigits;
  }

  lemma ZonedTextInjective(t: Zoned, u: Zoned)
    requires ZonedText(t) == ZonedText(u)
    ensures t == u
  {
    IntTextChars(t.instant);
    IntTextChars(u.instant);
    hide IntText;
    SplitOnce('T', IntText(t.instant), IntText(t.offset), IntText(u.instant), IntText(u.offset));
    IntRoundTrip(t.instant);
    IntRoundTrip(u.instant);
    IntRoundTrip(t.offset);
    IntRoundTrip(u.offset);
  }

  lemma MantissaChars(digits: string)
    requires digits != "" && AllDigits(digits)
    ensures NumberChars(Mantissa(digits)) && Mantissa(digits)[0] != '-'
  {
  }

  lemma MantissaInjective(s: string, t: string)
    requires s != "" && t != "" && AllDigits(s) && AllDigits(t) && Mantissa(s) == Mantissa(t)
    ensures s == t
  {
    if |s| > 1 && |t| > 1 {
      assert s == Mantissa(s)[..1] + Mantissa(s)[2..];
      assert t == Mantissa(t)[..1] + Mantissa(t)[2..];
    }
  }

  lemma ScientificInjective(d: Decimal, e: Decimal)
    requires d.exp > 0 && e.exp > 0 && DecimalStr(d) == DecimalStr(e)
    ensures d == e
  {
    var s, t := NatText(Abs(d.coef)), NatText(Abs(e.coef));
    var m := (if d.coef < 0 then "-" else "") + Mantissa(s);
    var n := (if e.coef < 0 then "-" else "") + Mantissa(t);
    MantissaChars(s);
    MantissaChars(t);
    NatRoundTrip(Abs(d.coef));
    NatRoundTrip(Abs(e.coef));
    var x, y := NatText(d.exp + |s| - 1), NatText(e.exp + |t| - 1);
    NatRoundTrip(d.exp + |s| - 1);
    NatRoundTrip(e.exp + |t| - 1);
    hide NatText, NatValue, Mantissa;
    SplitOnce('E', m, "+" + x, n, "+" + y);
    SamePlus(x, y);
    hide AllDigits, NumberChars;
    SignedMantissas(d.coef < 0, s, e.coef < 0, t);
  }

  lemma SamePlus(x: string, y: string)
    requires "+" + x == "+" + y
    ensures x == y
  {
    assert ("+" + x)[1..] == x && ("+" + y)[1..] == y;
  }

  lemma SignedMantissas(minus: bool, s: string, minus': bool, t: string)
    requires s != "" && t != "" && AllDigits(s) && AllDigits(t)
    requires (if minus then "-" else "") + Mantissa(s) == (if minus' then "-" else "") + Mantissa(t)
    ensures minus == minus' && s == t
  {
    MantissaChars(s);
    MantissaChars(t);
    hide Mantissa, AllDigits;
    var m, n := (if minus then "-" else "") + Mantissa(s), (if minus' then "-" else "") + Mantissa(t);
    assert m[0] == '-' <==> minus;
    assert n[0] == '-' <==> minus';
    assert Mantissa(s) == if minus then m[1..] else m;
    assert Mantissa(t) == if minus' then n[1..] else n;
    MantissaInjective(s, t);
  }

  lemma ScientificHasE(d: Decimal)
    requires d.exp > 0
    ensures 'E' in DecimalStr(d)
  {
  }

  /** The text of a decimal determines its digits and its exponent. */
  lemma DecimalStrInjective(d: Decimal, e: Decimal)
    requires DecimalStr(d) == DecimalStr(e)
    ensures d == e
  {
    hide DecimalStr, FixedText, ParseDecimal;
    FixedRoundTrip(d);
    FixedRoundTrip(e);
    FixedTextChars(d);
    FixedTextChars(e);
    FixedWhenPlain(d);
    FixedWhenPlain(e);
    if d.exp > 0 { ScientificHasE(d); }
    if e.exp > 0 { ScientificHasE(e); }
    if d.exp > 0 && e.exp > 0 { ScientificInjective(d, e); }
  }

  lemma FixedWhenPlain(d: Decimal)
    ensures d.exp <= 0 ==> DecimalStr(d) == FixedText(d)
  {
    hide FixedText;
  }

  // ---------------------------------------------------------------- requests

  /** What `_request_hash` is given: dispatch commands are dumped in JSON mode first. */
  function RequestItems(r: Request): seq<PyItem> {
    match r
    case ReserveRequest(offerId, quantity, actorId) =>
      [PyItem("offer_id", PyStr(offerId)), PyItem("quantity_kw", PyDecimal(quantity)),
       PyItem("actor_id", PyStr(actorId))]
    case DispatchRequest(reservationId, target, startsAt, endsAt, actorId) =>
      [PyItem("reservation_id", PyStr(reservationId)), PyItem("target_kw", PyStr(DecimalStr(target))),
       PyItem("starts_at", PyStr(ZonedText(startsAt))), PyItem("ends_at", PyStr(ZonedText(endsAt))),
       PyItem("actor_id", PyStr(actorId))]
    case SettleRequest(reservationId, actorId) =>
      [PyItem("reservation_id", PyStr(reservationId)), PyItem("actor_id", PyStr(actorId))]
  }

  /** `canonical_json(request)` */
  function RequestText(r: Request): string { CanonicalText(PyDict(RequestItems(r))) }

  /** A request up to what its text shows: the quantity of a reservation is written
      without exponent. */
  function CanonicalRequest(r: Request): Request {
    match r
    case ReserveRequest(offerId, quantity, actorId) => ReserveRequest(offerId, Plain(quantity), actorId)
    case _ => r
  }

  predicate SameOperation(r: Request, s: Request) {
    (r.ReserveRequest? <==> s.ReserveRequest?) && (r.DispatchRequest? <==> s.DispatchRequest?)
  }

  lemma RequestNamesDistinct(r: Request)
    ensures DistinctNames(RequestItems(r))
  {
    assert "starts_at"[0] == 's' && "ends_at"[0] == 'e' && "offer_id"[0] == 'o' && "actor_id"[0] == 'a';
  }

  /** Values agree in normal form, place by place. */
  predicate SameFields(a: seq<PyItem>, b: seq<PyItem>) {
    |a| == |b| && forall i :: 0 <= i < |a| ==> Normalize(a[i].value) == Normalize(b[i].value)
  }

  lemma FieldTexts(r: Request, s: Request)
    requires SameOperation(r, s) && RequestText(r) == RequestText(s)
    ensures SameFields(RequestItems(r), RequestItems(s))
  {
    SameTextSameNormal(PyDict(RequestItems(r)), PyDict(RequestItems(s)));
    RequestNamesDistinct(r);
    hide CanonicalText;
    FieldsAgree(RequestItems(r), RequestItems(s));
  }

  /** The text of a request determines the request, up to the exponent of a reserved
      quantity, and nothing more: requests with the same canonical form have the same
      text. */
  lemma RequestTextDecides(r: Request, s: Request)
    requires SameOperation(r, s)
    ensures RequestText(r) == RequestText(s) <==> CanonicalRequest(r) == CanonicalRequest(s)
  {
    if RequestText(r) == RequestText(s) {
      FieldTexts(r, s);
      TextsDecide(r, s);
    }
    if CanonicalRequest(r) == CanonicalRequest(s) && r.ReserveRequest? { SameQuantityText(r, s); }
  }

  lemma TextsDecide(r: Request, s: Request)
    requires SameOperation(r, s)
    requires SameFields(RequestItems(r), RequestItems(s))
    ensures CanonicalRequest(r) == CanonicalRequest(s)
  {
    hide FixedText, Plain, DecimalStr, ZonedText, ParseDecimal;
    var x, y := RequestItems(r), RequestItems(s);
    assert Normalize(x[0].value) == Normalize(y[0].value);
    assert Normalize(x[1].value) == Normalize(y[1].value);
    match r
    case ReserveRequest(_, quantity, _) =>
      assert Normalize(x[2].value) == Normalize(y[2].value);
      FixedRoundTrip(quantity);
      FixedRoundTrip(s.quantity);
    case DispatchRequest(_, target, startsAt, endsAt, _) =>
      assert Normalize(x[2].value) == Normalize(y[2].value);
      assert Normalize(x[3].value) == Normalize(y[3].value);
      assert Normalize(x[4].value) == Normalize(y[4].value);
      DecimalStrInjective(target, s.target);
      ZonedTextInjective(startsAt, s.startsAt);
      ZonedTextInjective(endsAt, s.endsAt);
    case SettleRequest(_, _) =>
  }

  /** Printing a decimal without its exponent changes nothing. */
  lemma PlainText(d: Decimal)
    ensures FixedText(Plain(d)) == FixedText(d)
  {
    if d.exp > 0 {
      var p := Pow10(d.exp);
      hide NatText;
      assert Abs(d.coef * p) == Abs(d.coef) * p by { hide Pow10; SignedProduct(d.coef, p); }
      assert d.coef * p < 0 <==> d.coef < 0 by { hide Pow10; SignedProduct(d.coef, p); }
      assert Pow10(0) == 1;
    }
  }

  lemma SignedProduct(c: int, p: nat)
    requires p > 0
    ensures Abs(c * p) == Abs(c) * p && (c * p < 0 <==> c < 0)
  {
    if c < 0 { assert (0 - c) * p == 0 - c * p; assert (0 - c) * p >= 1 * p; }
  }

  lemma SameQuantityText(r: Request, s: Request)
    requires r.ReserveRequest? && s.ReserveRequest? && CanonicalRequest(r) == CanonicalRequest(s)
    ensures RequestText(r) == RequestText(s)
  {
    PlainText(r.quantity);
    PlainText(s.quantity);
    hide CanonicalText, Sorted, FixedText, Plain;
    NormalizedQuantity(r, s);
  }

  lemma NormalizedQuantity(r: Request, s: Request)
    requires r.ReserveRequest? && s.ReserveRequest? && r.offerId == s.offerId && r.actorId == s.actorId
    requires FixedText(r.quantity) == FixedText(s.quantity)
    ensures CanonicalText(PyDict(RequestItems(r))) == CanonicalText(PyDict(RequestItems(s)))
  {
    var a, b := RequestItems(r), RequestItems(s);
    hide FixedText, Sorted, Print;
    assert forall i :: 0 <= i < 3 ==> Render(a[i].value) == Render(b[i].value);
    assert RenderMembers(a) == RenderMembers(b);
  }

  // ----------------------------------------------------------------- replays

  /** The request hash of the program for a given SHA-256. */
  ghost predicate HashesRequests(h: Hashes, sha: string -> string) { forall r :: h.request(r) == sha(RequestText(r)) }

  lemma HashDecides(h: Hashes, sha: string -> string, r: Request, s: Request)
    requires Ideal(sha) && HashesRequests(h, sha) && SameOperation(r, s)
    ensures h.request(r) == h.request(s) <==> CanonicalRequest(r) == CanonicalRequest(s)
  {
    hide RequestText;
    assert h.request(r) == sha(RequestText(r)) && h.request(s) == sha(RequestText(s));
    RequestTextDecides(r, s);
  }

  function ReserveRequestOf(c: Command): Request
    requires c.ReserveCommand?
  {
    ReserveRequest(c.offerId, c.reservation.quantity, c.actor.actorId)
  }

  function DispatchRequestOf(c: Command): Request
    requires c.IssueCommand?
  {
    DispatchRequest(c.reservationId, c.dispatch.target, c.dispatch.startsAt, c.dispatch.endsAt, c.actor.actorId)
  }

  function SettleRequestOf(c: Command): Request
    requires c.SettleCommand?
  {
    SettleRequest(c.reservationId, c.actor.actorId)
  }

  /** With SHA-256 free of collisions: after a reservation succeeded, its canonical request
      under the same key returns it with no change at any later time, and every other
      canonical request under that key is refused. */
  lemma ReserveReplaysCanonical(h: Hashes, sha: string -> string, max: nat, w: World, c: Command, stamp: Stamp,
                                run: seq<Event>, again: Command, later: Stamp)
    requires Ideal(sha) && HashesRequests(h, sha)
    requires max >= 1 && Reachable(h, max, w) && Enabled(max, w, Api(c), stamp) && c.ReserveCommand?
    requires Reserve(h, w.db, c.offerId, c.reservation, c.actor, c.key, c.newReservationId, stamp).Done?
    requires Legal(h, max, Next(h, max, w, Api(c), stamp), run)
    requires again.ReserveCommand? && again.reservation.Accepted() && again.key == c.key
    requires again.actor.role == MarketOperator
    ensures var id := Reserve(h, w.db, c.offerId, c.reservation, c.actor, c.key, c.newReservationId, stamp).value;
            var db := EndOf(h, max, Next(h, max, w, Api(c), stamp), run).db;
            Reserve(h, db, again.offerId, again.reservation, again.actor, again.key, again.newReservationId, later)
            == if CanonicalRequest(ReserveRequestOf(again)) == CanonicalRequest(ReserveRequestOf(c))
               then Done(db, id) else Failed(KeyReusedForOtherRequest)
  {
    hide Ideal, HashesRequests, CanonicalRequest, Reserve, Reachable, Legal, EndOf, Enabled, Next;
    ReserveReplays(h, max, w, c, stamp, run, again, later);
    HashDecides(h, sha, ReserveRequestOf(again), ReserveRequestOf(c));
  }

  /** The same for a dispatch, whose text shows the request in full. */
  lemma IssueReplaysCanonical(h: Hashes, sha: string -> string, max: nat, w: World, c: Command, stamp: Stamp,
                              run: seq<Event>, again: Command, later: Stamp)
    requires Ideal(sha) && HashesRequests(h, sha)
    requires max >= 1 && Reachable(h, max, w) && Enabled(max, w, Api(c), stamp) && c.IssueCommand?
    requires Issue(h, w.db, c.reservationId, c.dispatch, c.actor, c.key, c.dispatchId, c.messageId, stamp).Done?
    requires Legal(h, max, Next(h, max, w, Api(c), stamp), run)
    requires again.IssueCommand? && again.dispatch.Accepted() && again.key == c.key
    requires again.actor.role == MarketOperator
    ensures var id := Issue(h, w.db, c.reservationId, c.dispatch, c.actor, c.key, c.dispatchId, c.messageId,
                            stamp).value;
            var db := EndOf(h, max, Next(h, max, w, Api(c), stamp), run).db;
            Issue(h, db, again.reservationId, again.dispatch, again.actor, again.key, again.dispatchId, again.messageId,
                  later)
            == if DispatchRequestOf(again) == DispatchRequestOf(c) then Done(db, id)
                else Failed(KeyReusedForOtherRequest)
  {
    hide Ideal, HashesRequests, Issue, Reachable, Legal, EndOf, Enabled, Next;
    IssueReplays(h, max, w, c, stamp, run, again, later);
    HashDecides(h, sha, DispatchRequestOf(again), DispatchRequestOf(c));
  }

  /** The same for a settlement. */
  lemma SettleReplaysCanonical(h: Hashes, sha: string -> string, max: nat, w: World, c: Command, stamp: Stamp,
                               run: seq<Event>, again: Command, later: Stamp)
    requires Ideal(sha) && HashesRequests(h, sha)
    requires max >= 1 && Reachable(h, max, w) && Enabled(max, w, Api(c), stamp) && c.SettleCommand?
    requires Coordination.Settle(h, w.db, c.reservationId, c.actor, c.key, c.settlementId, stamp).Done?
    requires Legal(h, max, Next(h, max, w, Api(c), stamp), run)
    requires again.SettleCommand? && again.key == c.key && again.actor.role == SettlementAnalyst
    ensures var id := Coordination.Settle(h, w.db, c.reservationId, c.actor, c.key, c.settlementId, stamp).value;
            var db := EndOf(h, max, Next(h, max, w, Api(c), stamp), run).db;
            Coordination.Settle(h, db, again.reservationId, again.actor, again.key, again.settlementId, later)
            == if SettleRequestOf(again) == SettleRequestOf(c) then Done(db, id) else Failed(KeyReusedForOtherRequest)
  {
    hide Ideal, HashesRequests, Coordination.Settle, Reachable, Legal, EndOf, Enabled, Next;
    SettleReplays(h, max, w, c, stamp, run, again, later);
    HashDecides(h, sha, SettleRequestOf(again), SettleRequestOf(c));
  }
}
