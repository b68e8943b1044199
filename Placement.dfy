/** Placing an order: the client order id the bot attaches, how the venue's
    answer is read, and what a placement leaves in the ledger. */
module Placement {
  import opened GridTypes
  import opened OrderLedger
  import opened Arithmetic

  // ---------------------------------------------------------------------------
  // Client order ids
  // ---------------------------------------------------------------------------

  predicate IsDigits(s: string) {
    forall i :: 0 <= i < |s| ==> '0' <= s[i] <= '9'
  }

  function Pow10(k: nat): (p: nat)
    ensures p >= 1
  {
    if k == 0 then 1 else 10 * Pow10(k - 1)
  }

  /** `str(n)` for a natural number: its decimal digits, most significant first. */
  function DecimalString(n: nat): (s: string)
    ensures |s| >= 1 && IsDigits(s)
  {
    var last := ['0' + (n % 10) as char];
    if n < 10 then last else DecimalString(n / 10) + last
  }

  /** The number a string of decimal digits denotes. */
  function DigitsValue(s: string): nat
    requires IsDigits(s)
  {
    if s == [] then 0 else 10 * DigitsValue(s[..|s| - 1]) + (s[|s| - 1] - '0') as nat
  }

  /** Reading the digits of `str(n)` back gives `n`. */
  lemma {:induction false} DecimalStringRoundTrip(n: nat)
    ensures DigitsValue(DecimalString(n)) == n
  {
    var s := DecimalString(n);
    if n >= 10 {
      DecimalStringRoundTrip(n / 10);
      assert s[..|s| - 1] == DecimalString(n / 10);
    }
  }

  /** A string of k digits denotes a number below 10^k. */
  lemma {:induction false} DigitsValueBound(s: string)
    requires IsDigits(s)
    ensures DigitsValue(s) < Pow10(|s|)
  {
    if s != [] {
      DigitsValueBound(s[..|s| - 1]);
    }
  }

  /** (10a + c) mod 10m is 10 (a mod m) + c for a single digit c. */
  lemma ShiftMod(a: nat, c: nat, m: nat)
    requires c < 10 && m >= 1
    ensures (10 * a + c) % (10 * m) == 10 * (a % m) + c
  {
    var q, r := a / m, a % m;
    assert a == q * m + r;
    assert 10 * a + c == q * (10 * m) + (10 * r + c);
    ModUnique(10 * a + c, 10 * m, q, 10 * r + c);
  }

  /** The last k digits of a digit string denote its value modulo 10^k. */
  lemma {:induction false} DigitsSuffix(s: string, k: nat)
    requires IsDigits(s) && k <= |s|
    ensures DigitsValue(s[|s| - k..]) == DigitsValue(s) % Pow10(k)
  {
    if k == 0 {
      assert s[|s|..] == [];
    } else {
      var p := s[..|s| - 1];
      var c := (s[|s| - 1] - '0') as nat;
      DigitsSuffix(p, k - 1);
      var t := s[|s| - k..];
      assert t[..|t| - 1] == p[|p| - (k - 1)..];
      assert t[|t| - 1] == s[|s| - 1];
      ShiftMod(DigitsValue(p), c, Pow10(k - 1));
    }
  }

  /** Python's `s[-6:]`: the last six characters, or all of a shorter string. */
  function LastSix(s: string): (r: string)
    ensures |r| == if |s| < 6 then |s| else 6
    ensures r == s[|s| - |r|..]
  {
    if |s| <= 6 then s else s[|s| - 6..]
  }

  /** `generate_clOrdId`: the side, six random characters and the last six
      digits of the millisecond clock, cut to 32 characters. The clock and the
      random characters are parameters. */
  function ClOrdId(side: string, randomStr: string, millis: nat): (r: string)
    ensures |r| <= 32
    ensures r <= side + randomStr + LastSix(DecimalString(millis))
    ensures |side| <= 32 ==> side <= r
  {
    var full := side + randomStr + LastSix(DecimalString(millis));
    if |full| <= 32 then full else full[..32]
  }

  /** For the bot's own sides, six random characters and a clock past 10^5 ms,
      the id is the side, the random part, and six digits that denote the clock
      modulo 10^6 — nothing is cut. */
  lemma ClOrdIdShape(side: Direction, randomStr: string, millis: nat)
    requires |randomStr| == 6 && millis >= 100000
    ensures var r := ClOrdId(side.Name(), randomStr, millis);
            var n := |side.Name()|;
            && |r| == n + 12
            && r[..n] == side.Name()
            && r[n..n + 6] == randomStr
            && IsDigits(r[n + 6..])
            && DigitsValue(r[n + 6..]) == millis % 1000000
  {
    var d := DecimalString(millis);
    DecimalStringRoundTrip(millis);
    ClockHasSixDigits(millis);
    DigitsSuffix(d, 6);
    var tail := LastSix(d);
    var full := side.Name() + randomStr + tail;
    assert |full| <= 32;
    ThreeParts(side.Name(), randomStr, tail);
  }

  lemma ThreeParts(a: string, b: string, c: string)
    ensures var s := a + b + c;
            s[..|a|] == a && s[|a|..|a| + |b|] == b && s[|a| + |b|..] == c
  {
  }

  /** A clock of at least 10^5 ms prints with at least six digits. */
  lemma ClockHasSixDigits(millis: nat)
    requires millis >= 100000
    ensures |DecimalString(millis)| >= 6
  {
    var d := DecimalString(millis);
    DecimalStringRoundTrip(millis);
    assert Pow10(5) == 100000;
    if |d| < 6 {
      DigitsValueBound(d);
      PowMonotone(|d|, 5);
      assert false;
    }
  }

  lemma {:induction false} PowMonotone(i: nat, j: nat)
    requires i <= j
    ensures Pow10(i) <= Pow10(j)
  {
    if i < j {
      PowMonotone(i, j - 1);
    }
  }

  // ---------------------------------------------------------------------------
  // The venue's answer to a placement
  // ---------------------------------------------------------------------------

  /** One element of the response's `data` list; `ordId` may be missing. */
  datatype ResponseItem = ResponseItem(ordId: Option<string>)

  /** The venue's reply to a place-order request: its `code` and its `data` list
      (a missing list reads as empty). */
  datatype PlaceResponse = PlaceResponse(code: string, data: seq<ResponseItem>)

  /** The id `place_order` returns: present exactly when the code is "0", the data
      list is non-empty and its first item carries a non-empty `ordId`. */
  function PlacedId(resp: PlaceResponse): (r: Option<string>)
    ensures r.Some? <==>
              resp.code == "0" && |resp.data| > 0 &&
              resp.data[0].ordId.Some? && resp.data[0].ordId.value != ""
    ensures r.Some? ==> r.value == resp.data[0].ordId.value
  {
    if resp.code == "0" && |resp.data| > 0 then
      match resp.data[0].ordId
      case Some(id) => if id != "" then Some(id) else None
      case None => None
    else None
  }

  function InfoOf(req: OrderRequest): OrderInfo {
    OrderInfo(req.side, req.price, req.posSide)
  }

  /** The ledger after one placement: the new id recorded on success, nothing
      touched on failure. */
  function Record(m: map<string, OrderInfo>, req: OrderRequest, resp: PlaceResponse): (r: map<string, OrderInfo>)
    ensures PlacedId(resp).None? ==> r == m
    ensures PlacedId(resp).Some? ==>
              && Lookup(r, PlacedId(resp).value) == Some(InfoOf(req))
              && forall k :: k != PlacedId(resp).value ==> Lookup(r, k) == Lookup(m, k)
  {
    match PlacedId(resp)
    case Some(id) => Saved(m, id, InfoOf(req))
    case None => m
  }

  /** The ids the venue granted in its first `count` answers. */
  function GrantedIds(resps: seq<PlaceResponse>, count: nat): set<string>
    requires count <= |resps|
  {
    set i | 0 <= i < count && PlacedId(resps[i]).Some? :: PlacedId(resps[i]).value
  }

  /** The ledger after a series of placements, the i-th answered by resps[i]. */
  function RecordAll(m: map<string, OrderInfo>, reqs: seq<OrderRequest>, resps: seq<PlaceResponse>): map<string, OrderInfo>
    requires |reqs| <= |resps|
    decreases |reqs|
  {
    if reqs == [] then m
    else Record(RecordAll(m, reqs[..|reqs| - 1], resps), reqs[|reqs| - 1], resps[|reqs| - 1])
  }

  /** A series of placements adds exactly the granted ids to the ledger and
      leaves the entry of every other id as it was. */
  lemma {:induction false} RecordAllEffect(m: map<string, OrderInfo>, reqs: seq<OrderRequest>, resps: seq<PlaceResponse>)
    requires |reqs| <= |resps|
    ensures RecordAll(m, reqs, resps).Keys == m.Keys + GrantedIds(resps, |reqs|)
    ensures forall k :: k !in GrantedIds(resps, |reqs|) ==> Lookup(RecordAll(m, reqs, resps), k) == Lookup(m, k)
  {
    if reqs != [] {
      var n := |reqs| - 1;
      RecordAllEffect(m, reqs[..n], resps);
      var granted := GrantedIds(resps, n);
      if PlacedId(resps[n]).Some? {
        assert GrantedIds(resps, n + 1) == granted + {PlacedId(resps[n]).value};
      } else {
        assert GrantedIds(resps, n + 1) == granted;
      }
    }
  }

  /** `place_order`, from the moment the venue has answered: on success the order
      is saved in the ledger and its id returned; otherwise nothing is saved. */
  method PlaceOrder(ledger: Ledger, req: OrderRequest, resp: PlaceResponse) returns (id: Option<string>)
    modifies ledger
    ensures id == PlacedId(resp)
    ensures ledger.orders == Record(old(ledger.orders), req, resp)
  {
    id := None;
    if resp.code == "0" && |resp.data| > 0 {
      var info := resp.data[0];
      if info.ordId.Some? && info.ordId.value != "" {
        ledger.SaveOrderInfo(req.side, info.ordId.value, req.price, req.posSide);
        id := Some(info.ordId.value);
      }
    }
  }

  /** One more `place_order` call in a series: the request is appended to what
      was placed so far and answered by the next venue response. */
  method PlaceNext(ledger: Ledger, ghost before: map<string, OrderInfo>, placed: seq<OrderRequest>,
                   ids: seq<Option<string>>, req: OrderRequest, responses: seq<PlaceResponse>)
    returns (placed': seq<OrderRequest>, ids': seq<Option<string>>)
    requires |placed| < |responses| && |ids| == |placed|
    requires forall i :: 0 <= i < |ids| ==> ids[i] == PlacedId(responses[i])
    requires ledger.orders == RecordAll(before, placed, responses)
    modifies ledger
    ensures placed' == placed + [req]
    ensures |ids'| == |placed'| && forall i :: 0 <= i < |ids'| ==> ids'[i] == PlacedId(responses[i])
    ensures ledger.orders == RecordAll(before, placed', responses)
  {
    var id := PlaceOrder(ledger, req, responses[|placed|]);
    placed', ids' := placed + [req], ids + [id];
    assert placed'[..|placed'| - 1] == placed;
  }
}
