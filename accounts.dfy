// The account records of the server: the record `POST /api/accounts`
// builds from the backend profile, the patch of `PUT`/`PATCH`, the three
// ways a route id is matched against a stored id, and the bounded
// refresh-and-autobuy loop of `POST /api/accounts/:id/refresh`, as a
// function of the supplied backend answers.

module Accounts {
  import opened JsValues
  import opened Calls

  /** A stored account.  Fields that may be `undefined` (and are then left
      out of the JSON file) are `Option`s. */
  datatype Account = Account(
    fp: string,
    name: Option<Json>,
    token: Json,
    id: Option<Json>,
    pixelCount: Num,
    pixelMax: Option<Json>,
    droplets: Option<Json>,
    extraColorsBitmap: Num,
    active: Json,
    proxy: Json,
    pixelRight: Option<Json>,
    autobuy: Option<Json>)

  /** `===` between two parsed JSON values: two objects or arrays are
      distinct references, so never equal. */
  predicate StrictEq(a: Json, b: Json)
  {
    match a
    case JNull => b.JNull?
    case JBool(x) => b == JBool(x)
    case JNum(n) => StrictEqNum(b, n)
    case JStr(s) => b == JStr(s)
    case JArr(_) => false
    case JObj(_) => false
  }

  // --- Register -----------------------------------------------------------

  /** `typeof a.token === 'string' && a.token === token`. */
  predicate HoldsToken(a: Account, token: Json)
  {
    a.token.JStr? && a.token == token
  }

  /** `accounts.find` with `HoldsToken`, as an index. */
  function FindToken(accs: seq<Account>, token: Json): (r: int)
    ensures -1 <= r < |accs|
    ensures r >= 0 ==> HoldsToken(accs[r], token) && forall j :: 0 <= j < r ==> !HoldsToken(accs[j], token)
    ensures r == -1 <==> forall j :: 0 <= j < |accs| ==> !HoldsToken(accs[j], token)
  {
    if accs == [] then -1
    else if HoldsToken(accs[0], token) then 0
    else
      var r := FindToken(accs[1..], token);
      assert forall j :: 0 <= j < |accs[1..]| ==> accs[1..][j] == accs[j + 1];
      if r < 0 then -1 else r + 1
  }

  /** `accounts.find(a => a.token === jToken)` of the pixel handler, as an
      index. */
  function FindByToken(accs: seq<Account>, jToken: Json): (r: int)
    ensures -1 <= r < |accs|
    ensures r >= 0 ==> StrictEq(accs[r].token, jToken) && forall j :: 0 <= j < r ==> !StrictEq(accs[j].token, jToken)
    ensures r == -1 <==> forall j :: 0 <= j < |accs| ==> !StrictEq(accs[j].token, jToken)
  {
    if accs == [] then -1
    else if StrictEq(accs[0].token, jToken) then 0
    else
      var r := FindByToken(accs[1..], jToken);
      assert forall j :: 0 <= j < |accs[1..]| ==> accs[1..][j] == accs[j + 1];
      if r < 0 then -1 else r + 1
  }

  /** `me && me.charges`: a profile the server accepts. */
  predicate HasCharges(me: Json)
  {
    Truthy(me) && Present(Get(me, "charges"))
  }

  /** `Math.floor(me.charges.count)` on a profile with charges. */
  function ChargeCount(me: Json): Num
  {
    Floor(ToNumberOpt(GetOpt(Get(me, "charges"), "count")))
  }

  function ChargeMax(me: Json): Option<Json>
  {
    GetOpt(Get(me, "charges"), "max")
  }

  function ColorsBitmap(me: Json): Num
  {
    Floor(ToNumberOpt(Get(me, "extraColorsBitmap")))
  }

  /** The record a registration stores. */
  function NewAccount(fp: string, token: Json, name: Option<Json>, proxy: Json, me: Json): (a: Account)
    requires HasCharges(me)
    ensures a.fp == fp && a.token == token && a.proxy == proxy
    ensures a.name == if Present(name) then name else Get(me, "name")
    ensures a.id == Get(me, "id") && a.droplets == Get(me, "droplets")
    ensures a.pixelCount == ChargeCount(me) && a.pixelMax == ChargeMax(me) && a.extraColorsBitmap == ColorsBitmap(me)
    ensures a.active == JBool(!Present(Get(me, "banned")))
    ensures a.pixelRight.None? && a.autobuy.None?
  {
    Account(
      fp := fp,
      name := if Present(name) then name else Get(me, "name"),
      token := token,
      id := Get(me, "id"),
      pixelCount := ChargeCount(me),
      pixelMax := ChargeMax(me),
      droplets := Get(me, "droplets"),
      extraColorsBitmap := ColorsBitmap(me),
      active := JBool(!Present(Get(me, "banned"))),
      proxy := proxy,
      pixelRight := None,
      autobuy := None)
  }

  /** An account appended with a string token no stored account holds is
      the first one both searches find. */
  lemma FoundAfterAppend(accs: seq<Account>, a: Account, t: Json)
    requires FindToken(accs, t) < 0 && HoldsToken(a, t)
    ensures FindToken(accs + [a], t) == |accs| && FindByToken(accs + [a], t) == |accs|
  {
    TokenFoundAfterAppend(accs, a, t);
    StrictFoundAfterAppend(accs, a, t);
  }

  lemma TokenFoundAfterAppend(accs: seq<Account>, a: Account, t: Json)
    requires FindToken(accs, t) < 0 && HoldsToken(a, t)
    ensures FindToken(accs + [a], t) == |accs|
  {
    var n := accs + [a];
    assert n[|accs|] == a;
    forall j | 0 <= j < |accs|
      ensures !HoldsToken(n[j], t)
    {
      assert n[j] == accs[j];
    }
  }

  lemma StrictFoundAfterAppend(accs: seq<Account>, a: Account, t: Json)
    requires FindToken(accs, t) < 0 && HoldsToken(a, t)
    ensures FindByToken(accs + [a], t) == |accs|
  {
    var n := accs + [a];
    assert n[|accs|] == a && StrictEq(a.token, t);
    forall j | 0 <= j < |accs|
      ensures !StrictEq(n[j].token, t)
    {
      assert n[j] == accs[j] && !HoldsToken(accs[j], t);
    }
  }

  // --- Update ---------------------------------------------------------------

  /** Sets a field only from a truthy patch value (`v && (a.f = v)`). */
  function Overwrite(old_: Option<Json>, patch: Option<Json>): (r: Option<Json>)
    ensures Present(patch) ==> r == patch
    ensures !Present(patch) ==> r == old_
  {
    if Present(patch) then patch else old_
  }

  /** The patch of `updateAccount`: `name`, `token`, `pixelRight`, `active`
      and `autobuy` of the request body, each applied only when truthy. */
  function Patched(a: Account, body: Json): (r: Account)
    ensures r.(name := a.name, token := a.token, active := a.active, pixelRight := a.pixelRight, autobuy := a.autobuy) == a
    ensures r.name == Overwrite(a.name, Get(body, "name"))
    ensures r.pixelRight == Overwrite(a.pixelRight, Get(body, "pixelRight"))
    ensures r.autobuy == Overwrite(a.autobuy, Get(body, "autobuy"))
    ensures Some(r.token) == Overwrite(Some(a.token), Get(body, "token"))
    ensures Some(r.active) == Overwrite(Some(a.active), Get(body, "active"))
  {
    var token := Get(body, "token");
    var active := Get(body, "active");
    a.(name := Overwrite(a.name, Get(body, "name")),
       token := if Present(token) then token.value else a.token,
       pixelRight := Overwrite(a.pixelRight, Get(body, "pixelRight")),
       active := if Present(active) then active.value else a.active,
       autobuy := Overwrite(a.autobuy, Get(body, "autobuy")))
  }

  /** A patch cannot switch an account off: `active: false` is falsy and
      so ignored, and only a truthy value replaces the flag. */
  lemma PatchNeverDeactivates(a: Account, body: Json)
    requires Truthy(a.active)
    ensures Truthy(Patched(a, body).active)
  {
  }

  /** Applying the same patch twice is applying it once. */
  lemma PatchIdempotent(a: Account, body: Json)
    ensures Patched(Patched(a, body), body) == Patched(a, body)
  {
  }

  // --- Matching the route id ---------------------------------------------

  /** `a.id && a.id === +id` (update). */
  predicate UpdateMatch(a: Account, id: string)
  {
    Present(a.id) && StrictEqNum(a.id.value, StrToNum(id))
  }

  /** `typeof a.id === 'number' && a.id === +id` (delete). */
  predicate DeleteMatch(a: Account, id: string)
  {
    a.id.Some? && a.id.value.JNum? && StrictEqNum(a.id.value, StrToNum(id))
  }

  /** `a.id == id` (refresh): loose equality with the route string.  A
      number compares with the string's numeric value, a boolean through
      its own, a string as a string; `undefined` and `null` equal no
      string. */
  predicate LooseMatch(a: Account, id: string)
  {
    a.id.Some? &&
    match a.id.value
    case JNull => false
    case JBool(b) => StrToNum(id) == Finite(if b then 1.0 else 0.0)
    case JNum(n) => n != NaN && n == StrToNum(id)
    case JStr(s) => s == id
    case JArr(_) => false
    case JObj(_) => false
  }

  /** The two numeric matches differ on the id 0 only: update refuses a
      falsy id, delete does not. */
  lemma UpdateVersusDelete(a: Account, id: string)
    ensures UpdateMatch(a, id) ==> DeleteMatch(a, id)
    ensures DeleteMatch(a, id) && a.id != Some(JNum(Finite(0.0))) ==> UpdateMatch(a, id)
  {
  }

  /** A numeric id matched by update or delete is matched by refresh as
      well. */
  lemma DeleteImpliesLoose(a: Account, id: string)
    requires DeleteMatch(a, id)
    ensures LooseMatch(a, id)
  {
  }

  /** `findIndex` with `UpdateMatch`. */
  function FindUpdate(accs: seq<Account>, id: string): (r: int)
    ensures -1 <= r < |accs|
    ensures r >= 0 ==> UpdateMatch(accs[r], id) && forall j :: 0 <= j < r ==> !UpdateMatch(accs[j], id)
    ensures r == -1 <==> forall j :: 0 <= j < |accs| ==> !UpdateMatch(accs[j], id)
  {
    if accs == [] then -1
    else if UpdateMatch(accs[0], id) then 0
    else
      var r := FindUpdate(accs[1..], id);
      assert forall j :: 0 <= j < |accs[1..]| ==> accs[1..][j] == accs[j + 1];
      if r < 0 then
        -1
      else
        assert UpdateMatch(accs[r + 1], id);
        r + 1
  }

  /** `findIndex` with `LooseMatch`. */
  function FindLoose(accs: seq<Account>, id: string): (r: int)
    ensures -1 <= r < |accs|
    ensures r >= 0 ==> LooseMatch(accs[r], id) && forall j :: 0 <= j < r ==> !LooseMatch(accs[j], id)
    ensures r == -1 <==> forall j :: 0 <= j < |accs| ==> !LooseMatch(accs[j], id)
  {
    if accs == [] then -1
    else if LooseMatch(accs[0], id) then 0
    else
      var r := FindLoose(accs[1..], id);
      assert forall j :: 0 <= j < |accs[1..]| ==> accs[1..][j] == accs[j + 1];
      if r < 0 then -1 else r + 1
  }

  /** The `filter` of delete: every account the id does not match, in
      order. */
  function RemoveId(accs: seq<Account>, id: string): (r: seq<Account>)
    ensures |r| <= |accs|
    ensures forall a :: a in r <==> a in accs && !DeleteMatch(a, id)
  {
    if accs == [] then []
    else
      var rest := RemoveId(accs[1..], id);
      assert forall a :: a in accs <==> a == accs[0] || a in accs[1..];
      if DeleteMatch(accs[0], id) then rest else [accs[0]] + rest
  }

  /** The removal distributes over concatenation, so the kept accounts keep
      their order. */
  lemma {:induction false} RemoveIdAppend(a: seq<Account>, b: seq<Account>, id: string)
    ensures RemoveId(a + b, id) == RemoveId(a, id) + RemoveId(b, id)
  {
    if a == [] {
      assert a + b == b;
    } else {
      assert (a + b)[1..] == a[1..] + b;
      assert (a + b)[0] == a[0];
      RemoveIdAppend(a[1..], b, id);
      if !DeleteMatch(a[0], id) {
        assert [a[0]] + (RemoveId(a[1..], id) + RemoveId(b, id)) == ([a[0]] + RemoveId(a[1..], id)) + RemoveId(b, id);
      }
    }
  }

  /** After a delete no account is matched by the id for an update, nor
      for another delete. */
  lemma RemovedIdGone(accs: seq<Account>, id: string)
    ensures FindUpdate(RemoveId(accs, id), id) == -1
    ensures forall a :: a in RemoveId(accs, id) ==> !DeleteMatch(a, id)
  {
    var r := RemoveId(accs, id);
    forall j | 0 <= j < |r|
      ensures !UpdateMatch(r[j], id)
    {
      assert r[j] in r;
      UpdateVersusDelete(r[j], id);
    }
  }

  // --- Refresh ------------------------------------------------------------

  /** `Boolean(me && me.charges && !me.banned)`. */
  predicate Active(me: Json)
  {
    HasCharges(me) && !Present(Get(me, "banned"))
  }

  /** The account after one profile fetch: the flag always, the snapshot
      only when active. */
  function WithProfile(a: Account, me: Json): Account
  {
    if Active(me) then
      a.(active := JBool(true), pixelCount := ChargeCount(me), pixelMax := ChargeMax(me), droplets := Get(me, "droplets"),
         extraColorsBitmap := ColorsBitmap(me))
    else a.(active := JBool(false))
  }

  /** One fetch sets the flag to the profile's state; the snapshot changes
      only when the profile is active, and nothing else changes. */
  lemma WithProfileMeaning(a: Account, me: Json)
    ensures WithProfile(a, me).active == JBool(Active(me))
    ensures !Active(me) ==> WithProfile(a, me) == a.(active := JBool(false))
    ensures Active(me) ==> WithProfile(a, me).pixelCount == ChargeCount(me) && WithProfile(a, me).pixelMax == ChargeMax(me)
                           && WithProfile(a, me).droplets == Get(me, "droplets")
                           && WithProfile(a, me).extraColorsBitmap == ColorsBitmap(me)
    ensures WithProfile(a, me).(active := a.active, pixelCount := a.pixelCount, pixelMax := a.pixelMax, droplets := a.droplets,
               extraColorsBitmap := a.extraColorsBitmap) == a
  {
  }

  /** The product an autobuy setting buys: `max` is 70, `rec` is 80. */
  function Product(autobuy: Option<Json>): (r: Option<int>)
    ensures r.Some? <==> autobuy == Some(JStr("max")) || autobuy == Some(JStr("rec"))
    ensures r.Some? ==> r.value == 70 || r.value == 80
    ensures autobuy == Some(JStr("max")) ==> r == Some(70)
    ensures autobuy == Some(JStr("rec")) ==> r == Some(80)
  {
    if autobuy == Some(JStr("max")) then Some(70)
    else if autobuy == Some(JStr("rec")) then Some(80)
    else None
  }

  /** `n / 500` on doubles. */
  function Per500(n: Num): Num
  {
    match n
    case Finite(v) => Finite(v / 500.0)
    case NaN => NaN
    case PosInf => PosInf
    case NegInf => NegInf
  }

  /** `Math.floor(Number(account.droplets || 0) / 500)`. */
  function Quantity(droplets: Option<Json>): Num
  {
    Floor(Per500(if Present(droplets) then ToNumber(droplets.value) else Finite(0.0)))
  }

  /** `quantity > 0`. */
  predicate Positive(n: Num)
  {
    (n.Finite? && n.v > 0.0) || n.PosInf?
  }

  /** A finite quantity is positive exactly when the droplets reach 500. */
  lemma QuantityThreshold(d: real)
    ensures Positive(Quantity(Some(JNum(Finite(d))))) <==> d >= 500.0
  {
    var q := d / 500.0;
    assert Per500(Finite(d)) == Finite(q);
    if d >= 500.0 {
      assert q >= 1.0;
      assert q.Floor >= 1;
    } else {
      assert q < 1.0;
      assert q.Floor <= 0;
    }
  }

  /** Whether an iteration buys, given the profile it fetched.  The
      droplets it reads are the ones the same iteration just stored. */
  predicate Buys(a: Account, me: Json)
  {
    Active(me) && Product(a.autobuy).Some? && Positive(Quantity(Get(me, "droplets")))
  }

  /** The purchase of an iteration that buys. */
  function BuyCall(a: Account, me: Json): Call
    requires Buys(a, me)
  {
    PurchaseProduct(a.token, Product(a.autobuy).value, Quantity(Get(me, "droplets")))
  }

  /** The refresh loop from iteration `index` on: the account it leaves
      and the calls it makes.  The i-th profile fetch is answered by
      `mes`, the purchase of iteration i by `buys`. */
  function RefreshFrom(a: Account, mes: seq<Json>, buys: seq<Json>, index: nat): (Account, seq<Call>)
    decreases 2 - index
  {
    if index >= 2 then (a, [])
    else
      var me := Answer(mes, index);
      var a1 := WithProfile(a, me);
      if Buys(a, me) then
        var buy := BuyCall(a, me);
        if Truthy(Answer(buys, index)) then
          var rest := RefreshFrom(a1, mes, buys, index + 1);
          (rest.0, [FetchMe(a.token), buy] + rest.1)
        else (a1, [FetchMe(a.token), buy])
      else (a1, [FetchMe(a.token)])
  }

  /** One round of the loop, unfolded. */
  lemma RefreshStep(a: Account, mes: seq<Json>, buys: seq<Json>, index: nat)
    requires index < 2
    ensures var me := Answer(mes, index);
            var a1 := WithProfile(a, me);
            a1.token == a.token && a1.autobuy == a.autobuy
            && (a1.active == JBool(true) <==> Active(me))
            && (Active(me) ==> a1.droplets == Get(me, "droplets"))
    ensures var me := Answer(mes, index);
            var a1 := WithProfile(a, me);
            var rest := RefreshFrom(a1, mes, buys, index + 1);
            RefreshFrom(a, mes, buys, index)
              == if Buys(a, me) && Truthy(Answer(buys, index)) then (rest.0, [FetchMe(a.token), BuyCall(a, me)] + rest.1)
                 else if Buys(a, me) then (a1, [FetchMe(a.token), BuyCall(a, me)])
                 else (a1, [FetchMe(a.token)])
  {
  }

  function Refresh(a: Account, mes: seq<Json>, buys: seq<Json>): (Account, seq<Call>)
  {
    RefreshFrom(a, mes, buys, 0)
  }

  // The two counts below are the measures RefreshBounded bounds; their own
  // contracts only say a count never exceeds the calls counted.

  /** The profile fetches among the calls. */
  function CountFetches(cs: seq<Call>): (n: nat)
    ensures n <= |cs|
  {
    if cs == [] then 0 else (if cs[0].FetchMe? then 1 else 0) + CountFetches(cs[1..])
  }

  /** The purchases among the calls. */
  function CountPurchases(cs: seq<Call>): (n: nat)
    ensures n <= |cs|
  {
    if cs == [] then 0 else (if cs[0].PurchaseProduct? then 1 else 0) + CountPurchases(cs[1..])
  }

  lemma CountPrefix(c: Call, cs: seq<Call>)
    ensures CountFetches([c] + cs) == (if c.FetchMe? then 1 else 0) + CountFetches(cs)
    ensures CountPurchases([c] + cs) == (if c.PurchaseProduct? then 1 else 0) + CountPurchases(cs)
  {
    assert ([c] + cs)[1..] == cs;
  }

  /** The loop is bounded: every iteration fetches the profile once and
      buys at most once, and there are at most two iterations. */
  lemma {:induction false} RefreshBounded(a: Account, mes: seq<Json>, buys: seq<Json>, index: nat)
    requires index <= 2
    ensures var cs := RefreshFrom(a, mes, buys, index).1;
            CountFetches(cs) <= 2 - index && CountPurchases(cs) <= CountFetches(cs)
    decreases 2 - index
  {
    if index < 2 {
      var me := Answer(mes, index);
      var a1 := WithProfile(a, me);
      var rest := if Buys(a, me) && Truthy(Answer(buys, index)) then RefreshFrom(a1, mes, buys, index + 1).1 else [];
      if Buys(a, me) && Truthy(Answer(buys, index)) {
        RefreshBounded(a1, mes, buys, index + 1);
      } else {
        assert CountFetches(rest) == 0 && CountPurchases(rest) == 0;
      }
      if Buys(a, me) {
        var buy := BuyCall(a, me);
        assert RefreshFrom(a, mes, buys, index).1 == [FetchMe(a.token)] + ([buy] + rest);
        CountPrefix(buy, rest);
        CountPrefix(FetchMe(a.token), [buy] + rest);
      } else {
        assert RefreshFrom(a, mes, buys, index).1 == [FetchMe(a.token)] + rest;
        CountPrefix(FetchMe(a.token), rest);
      }
    }
  }

  /** A call of the refresh loop: a profile fetch or a purchase of product
      70 or 80 for a positive quantity, with the given token. */
  predicate RefreshCall(c: Call, token: Json)
  {
    (c.FetchMe? && c.token == token)
    || (c.PurchaseProduct? && c.token == token && (c.productId == 70 || c.productId == 80) && Positive(c.quantity))
  }

  predicate AllRefreshCalls(cs: seq<Call>, token: Json)
  {
    forall k :: 0 <= k < |cs| ==> RefreshCall(cs[k], token)
  }

  lemma AllRefreshCallsCons(c: Call, cs: seq<Call>, token: Json)
    requires RefreshCall(c, token) && AllRefreshCalls(cs, token)
    ensures AllRefreshCalls([c] + cs, token)
  {
    var r := [c] + cs;
    forall k | 0 <= k < |r|
      ensures RefreshCall(r[k], token)
    {
      if k > 0 {
        assert r[k] == cs[k - 1];
      }
    }
  }

  /** Every call the loop makes is a profile fetch or a purchase of
      product 70 or 80 for a positive quantity, with the account's token. */
  lemma {:induction false} RefreshPurchases(a: Account, mes: seq<Json>, buys: seq<Json>, index: nat)
    ensures AllRefreshCalls(RefreshFrom(a, mes, buys, index).1, a.token)
    decreases 2 - index
  {
    if index < 2 {
      var me := Answer(mes, index);
      var a1 := WithProfile(a, me);
      assert a1.token == a.token;
      var rest := if Buys(a, me) && Truthy(Answer(buys, index)) then RefreshFrom(a1, mes, buys, index + 1).1 else [];
      if Buys(a, me) && Truthy(Answer(buys, index)) {
        RefreshPurchases(a1, mes, buys, index + 1);
      }
      if Buys(a, me) {
        var buy := BuyCall(a, me);
        assert RefreshFrom(a, mes, buys, index).1 == [FetchMe(a.token)] + ([buy] + rest);
        AllRefreshCallsCons(buy, rest, a.token);
        AllRefreshCallsCons(FetchMe(a.token), [buy] + rest, a.token);
      } else {
        assert RefreshFrom(a, mes, buys, index).1 == [FetchMe(a.token)] + rest;
        AllRefreshCallsCons(FetchMe(a.token), rest, a.token);
      }
    }
  }

  /** The loop changes only the flag and the snapshot: the token, the id,
      the fingerprint, the name, the proxy, the pixel right and the
      autobuy setting stay. */
  lemma {:induction false} RefreshKeeps(a: Account, mes: seq<Json>, buys: seq<Json>, index: nat)
    ensures var r := RefreshFrom(a, mes, buys, index).0;
            r.(active := a.active, pixelCount := a.pixelCount, pixelMax := a.pixelMax, droplets := a.droplets,
               extraColorsBitmap := a.extraColorsBitmap) == a
    decreases 2 - index
  {
    if index < 2 {
      var me := Answer(mes, index);
      var a1 := WithProfile(a, me);
      if Buys(a, me) && Truthy(Answer(buys, index)) {
        RefreshKeeps(a1, mes, buys, index + 1);
      }
    }
  }

  /** The loop stops at the first iteration that does not buy
      successfully: a profile that is not active, no autobuy, too few
      droplets or a falsy purchase answer.  The account then reflects that
      iteration's profile. */
  lemma RefreshStops(a: Account, mes: seq<Json>, buys: seq<Json>)
    requires !(Buys(a, Answer(mes, 0)) && Truthy(Answer(buys, 0)))
    ensures Refresh(a, mes, buys).0 == WithProfile(a, Answer(mes, 0))
    ensures CountFetches(Refresh(a, mes, buys).1) == 1
  {
    var me := Answer(mes, 0);
    var a1 := WithProfile(a, me);
    if Buys(a, me) {
      var buy := BuyCall(a, me);
      assert [FetchMe(a.token), buy][1..][1..] == [];
    } else {
      assert [FetchMe(a.token)][1..] == [];
    }
  }

  /** A second fetch happens only after a successful purchase, and the
      account then reflects the second profile. */
  lemma RefreshContinues(a: Account, mes: seq<Json>, buys: seq<Json>)
    requires Buys(a, Answer(mes, 0)) && Truthy(Answer(buys, 0))
    ensures Refresh(a, mes, buys).0 == WithProfile(WithProfile(a, Answer(mes, 0)), Answer(mes, 1))
    ensures CountFetches(Refresh(a, mes, buys).1) == 2
  {
    var a1 := WithProfile(a, Answer(mes, 0));
    var a2 := WithProfile(a1, Answer(mes, 1));
    var r := RefreshFrom(a1, mes, buys, 1);
    assert RefreshFrom(a2, mes, buys, 2) == (a2, []);
    assert r.0 == a2;
    assert CountFetches(r.1) == 1 by {
      var me := Answer(mes, 1);
      if Buys(a1, me) {
        var tail := if Truthy(Answer(buys, 1)) then RefreshFrom(a2, mes, buys, 2).1 else [];
        assert tail == [];
        assert r.1 == [FetchMe(a1.token)] + ([BuyCall(a1, me)] + tail);
        CountPrefix(BuyCall(a1, me), tail);
        CountPrefix(FetchMe(a1.token), [BuyCall(a1, me)] + tail);
      } else {
        assert r.1 == [FetchMe(a1.token)] + [];
        CountPrefix(FetchMe(a1.token), []);
      }
    }
    var buy := BuyCall(a, Answer(mes, 0));
    assert Refresh(a, mes, buys).1 == [FetchMe(a.token)] + ([buy] + r.1);
    CountPrefix(buy, r.1);
    CountPrefix(FetchMe(a.token), [buy] + r.1);
  }
}
